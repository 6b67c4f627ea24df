/** Runs from the initial state in which the two promises fail that the pipeline does not keep: a verdict is
    overwritten, and an execution never gets one. */
module Runs {
  import opened Json
  import opened Engine
  import opened System
  import opened SystemFacts
  import opened GiveUp
  import opened Verdicts
  import P = Protocol
  import PF = ProtocolFacts
  import Topology

  lemma TriggeredIs(wf: nat)
    ensures var s := Apply(Init(1), Trigger(wf, true));
            && Kept(s, s) && Free(s, 0) && s.broker.runQ == [P.Message(0, 1, wf, [], 0, 0, 0, 0)]
            && s.rows == map[1 := Row(wf, "pending")] && s.calls == [] && |s.broker.ledger| == 1
            && s.broker.ledger[0].exec == 1
  {
    P.PublishIs(Init(1).broker, 1, wf);
  }

  // One execution is triggered, and its message is alone in the run queue.
  lemma Triggered(wf: nat) returns (s: State, trace: seq<Step>, m: P.Message)
    ensures Reaches(Init(1), trace, s) && Given(trace) == [Trigger(wf, true)] && Inv(s, Nobody)
    ensures Kept(s, s) && Free(s, 0) && s.broker.runQ == [m] && m == P.Message(0, 1, wf, [], 0, 0, 0, 0)
    ensures s.rows == map[1 := Row(wf, "pending")] && s.calls == []
    ensures |s.broker.ledger| == 1 && s.broker.ledger[0].exec == 1
  {
    TriggeredIs(wf);
    InitInv(1, Nobody);
    m := P.Message(0, 1, wf, [], 0, 0, 0, 0);
    s, trace := FirstStep(Init(1), Trigger(wf, true));
    OneStep(Init(1), Trigger(wf, true));
  }

  // ----- a verdict is overwritten -----

  lemma Received(wf: nat) returns (s: State, trace: seq<Step>, m: P.Message)
    ensures Reaches(Init(1), trace, s) && Given(trace) == [Trigger(wf, true)] && Inv(s, Nobody)
    ensures Holds(s, 0, m) && m == P.Message(0, 1, wf, [], 0, 0, 0, 0)
    ensures s.rows == map[1 := Row(wf, "pending")] && s.calls == [] && |s.broker.ledger| == 1
  {
    var t, first;
    t, first, m := Triggered(wf);
    var second;
    s, second := Receive(t, 0);
    Join(Init(1), first, t, second, s);
    ReachesInv(t, second, s);
    trace := first + second;
  }

  lemma AtEngine(wf: nat, parsed: Option<seq<StepDef>>, obs: seq<Obs>) returns (s: State, trace: seq<Step>)
    requires WellFormed(parsed, obs)
    ensures Reaches(Init(1), trace, s) && Given(trace) == [Trigger(wf, true)] && Inv(s, Only(0, false))
    ensures s.rows == map[1 := Row(wf, "pending")] && |s.broker.ledger| == 1
    ensures s.calls == [Attempt(1, 0, parsed, obs, 0, false)] && |s.broker.workers| > 0
    ensures s.broker.workers[0] == P.Calling(P.Message(0, 1, wf, [], 0, 0, 0, 1), 0)
  {
    var t, first, m := Received(wf);
    var second;
    s, second := Call(t, 0, m, parsed, obs);
    Join(Init(1), first, t, second, s);
    trace := first + second;
    Watched(1, trace, s);
  }

  lemma Watched(n: nat, trace: seq<Step>, s: State)
    requires Reaches(Init(n), trace, s) && Patient(Given(trace))
    ensures Inv(s, Only(0, false)) && AllHonest(Init(n), trace, Only(0, true))
  {
    PatientIfGiven(trace);
    PatientIsHonest(Init(n), trace, Only(0, false));
    PatientIsHonest(Init(n), trace, Only(0, true));
    Reached(n, trace, Only(0, false));
  }

  lemma {:induction false} AllCount(calls: seq<Attempt>, id: nat)
    requires forall c :: 0 <= c < |calls| ==> calls[c].msg == id
    ensures CallsFor(calls, id) == |calls|
  {
    if calls != [] { AllCount(calls[1..], id); }
  }

  lemma OnlyMessage(s: State)
    requires Inv(s, Nobody) && |s.broker.ledger| == 1
    ensures CallsFor(s.calls, 0) == |s.calls|
  {
    forall c | 0 <= c < |s.calls| ensures s.calls[c].msg == 0 { assert CallOk(s.calls[c], s.broker.ledger); }
    AllCount(s.calls, 0);
  }

  // The only execution, of workflow wf, has been called exactly twice, for a workflow of these steps.
  predicate CalledTwice(s: State, wf: nat, parsed: Option<seq<StepDef>>, obs: seq<Obs>) {
    && s.rows.Keys == {1} && s.rows[1].wf == wf && |s.broker.ledger| == 1
    && |s.calls| == 2 && forall c :: 0 <= c < 2 ==>
                          s.calls[c].exec == 1 && s.calls[c].parsed == parsed && s.calls[c].obs == obs
  }

  lemma ErrorIs(s: State)
    requires Enabled(s, Answer(0, false))
    ensures Apply(s, Answer(0, false)).calls == s.calls
  {
  }

  lemma OneCall(a: Attempt)
    ensures CallsFor([a], a.msg) == 1
  {
    assert [a][1..] == [];
  }

  lemma TwiceOnly(s: State, z: State, d: nat, wf: nat, parsed: Option<seq<StepDef>>, obs: seq<Obs>)
    requires s.rows == map[1 := Row(wf, "pending")] && |s.broker.ledger| == 1
    requires s.calls == [Attempt(1, 0, parsed, obs, 0, false)] && |z.calls| == 2 && d == 1
    requires SameRun(s.calls[0], z.calls[0]) && SameRun(s.calls[0], z.calls[d])
    requires z.broker.ledger == s.broker.ledger && OnlyWf(s, z)
    ensures CalledTwice(z, wf, parsed, obs)
  {
  }

  // From the engine call on: its error reply, and a second call.
  lemma RepliedWithError(s: State, wf: nat, parsed: Option<seq<StepDef>>, obs: seq<Obs>)
    returns (rest: seq<Step>, second: seq<Step>, z: State)
    requires Inv(s, Only(0, false)) && s.rows == map[1 := Row(wf, "pending")] && |s.broker.ledger| == 1
    requires WellFormed(parsed, obs) && s.calls == [Attempt(1, 0, parsed, obs, 0, false)] && |s.broker.workers| > 0
    requires s.broker.workers[0] == P.Calling(P.Message(0, 1, wf, [], 0, 0, 0, 1), 0)
    ensures Enabled(s, Answer(0, false))
    ensures var u := Apply(s, Answer(0, false));
            Overwritten(u, 1, rest, second) && Leads(u, rest + second, z) && z == After(After(u, rest), second)
    ensures CalledTwice(z, wf, parsed, obs)
  {
    var third, v, d;
    rest, second, z, third, v, d := RunsAgain(s, Answer(0, false), 0);
    ErrorIs(s);
    Unwatched(s, Only(0, false));
    StepKeepsInv(s, Answer(0, false), Nobody);
    ReachesInv(Apply(s, Answer(0, false)), rest + second, z);
    OnlyMessage(z);
    OneCall(s.calls[0]);
    TwiceOnly(s, z, d, wf, parsed, obs);
  }

  // For every workflow and every outside behaviour of its steps there is a run with one worker, one trigger and, as
  // its only fault, one error reply, in which the execution gets its verdict and is then put back to running.
  lemma OverwrittenRun(wf: nat, parsed: Option<seq<StepDef>>, obs: seq<Obs>)
    returns (first: seq<Step>, second: seq<Step>)
    requires WellFormed(parsed, obs)
    ensures Overwritten(Init(1), 1, first, second)
    ensures Given(first + second) == [Trigger(wf, true), Answer(0, false)]
    ensures CalledTwice(After(After(Init(1), first), second), wf, parsed, obs)
  {
    var s, before := AtEngine(wf, parsed, obs);
    var rest, z;
    rest, second, z := RepliedWithError(s, wf, parsed, obs);
    var x := Answer(0, false);
    OneStep(s, x);
    Join(Init(1), before, s, [x], Apply(s, x));
    first := before + [x] + rest;
    Prefixed(Init(1), before + [x], Apply(s, x), rest, second, z, 1);
    GivenThree(before + [x], rest, second);
  }

  // ----- an execution never gets a verdict -----

  lemma OnlyOneDone(b: P.State, j: nat)
    requires P.Inv(b) && |b.ledger| == 1 && j < |b.done|
    ensures |b.done| == 1
  {
    if |b.done| > 1 {
      assert P.Listed(b.done[0].msg, b.ledger) && P.Listed(b.done[1].msg, b.ledger);
      PF.AtMostOnePlace(b, PF.Finished(0), PF.Finished(1), 0);
    }
  }

  // The only execution's message was dropped at the retry limit, and its row is pending.
  predicate OnlyDropped(t: State, wf: nat) {
    && |t.broker.done| == 1 && t.broker.done[0].how == P.RetriesExhausted && t.broker.done[0].msg.exec == 1
    && t.rows.Keys == {1} && t.rows[1] == Row(wf, "pending")
  }

  // With one worker, one trigger and, as the only faults, three failing row lookups, the message is dropped and the
  // row stays pending: not every execution reaches success or failed.
  lemma ExhaustedRun(wf: nat) returns (trace: seq<Step>)
    ensures Legal(Init(1), trace) && AllHonest(Init(1), trace, Only(0, true))
    ensures var lookup := Take(0, true, None, []); Given(trace) == [Trigger(wf, true), lookup, lookup, lookup]
    ensures OnlyDropped(After(Init(1), trace), wf)
  {
    var t;
    t, trace := TriedOut(wf);
    ThreeLookups();
    Watched(1, trace, t);
  }

  lemma TriedOut(wf: nat) returns (t: State, trace: seq<Step>)
    ensures Reaches(Init(1), trace, t) && Given(trace) == [Trigger(wf, true)] + Lookups(0, 3) && OnlyDropped(t, wf)
  {
    var s, first, m := Triggered(wf);
    var second, j;
    t, second, j := Exhaust(s, 0, 0, m);
    Join(Init(1), first, s, second, t);
    trace := first + second;
    DroppedAlone(s, t, wf, j);
  }

  lemma ThreeLookups()
    ensures Lookups(0, 3) == [Take(0, true, None, []), Take(0, true, None, []), Take(0, true, None, [])]
  {
  }

  lemma DroppedAlone(s: State, t: State, wf: nat, j: nat)
    requires s.rows == map[1 := Row(wf, "pending")] && |s.broker.ledger| == 1 && s.broker.ledger[0].exec == 1
    requires Inv(t, Nobody) && Beside(s, t, 0) && DroppedAt(t, 0, j)
    ensures OnlyDropped(t, wf)
  {
    OnlyOneDone(t.broker, j);
    PresentListed(t.broker, PF.Finished(0));
    assert 1 in s.rows && StatusOf(t, 1) == "pending";
  }

  // And there it stays, whatever follows: a message dropped at the limit leaves its row pending for good.
  lemma PendingForGood(s: State, i: nat, trace: seq<Step>)
    requires i < |s.broker.done| && s.broker.done[i].how == P.RetriesExhausted && Legal(s, trace)
    requires Inv(s, Only(s.broker.done[i].msg.id, true))
    ensures StatusOf(After(s, trace), s.broker.done[i].msg.exec) == "pending"
  {
    var id := s.broker.done[i].msg.id;
    Unwatched(s, Only(id, true));
    PresentListed(s.broker, PF.Finished(i));
    DoneIsSpent(s.broker, i);
    SpentForGood(s, trace, id);
    ReachableInv(s, trace, Only(id, true));
    DoneStays(s, trace);
    SettledIn(After(s, trace), i, Only(id, true));
  }

  lemma DoneIsSpent(b: P.State, i: nat)
    requires P.Inv(b) && i < |b.done|
    ensures Spent(b, b.done[i].msg.id)
  {
    var id := b.done[i].msg.id;
    var here := PF.Finished(i);
    forall j | 0 <= j < |b.runQ| ensures b.runQ[j].id != id {
      if b.runQ[j].id == id { PF.AtMostOnePlace(b, here, PF.InRun(j), id); }
    }
    forall j | 0 <= j < |b.retryQ| ensures b.retryQ[j].msg.id != id {
      if b.retryQ[j].msg.id == id { PF.AtMostOnePlace(b, here, PF.InRetry(j), id); }
    }
    forall j | 0 <= j < |b.workers| && P.Holding(b.workers[j]) ensures b.workers[j].msg.id != id {
      if b.workers[j].msg.id == id { PF.AtMostOnePlace(b, here, PF.AtWorker(j), id); }
    }
  }

  lemma DoneGrows(s: State, step: Step)
    requires s.broker.topology == Topology.PIPELINE && Enabled(s, step)
    ensures s.broker.done <= Apply(s, step).broker.done
  {
    var part := BrokerPart(s, step);
    if part.Some? { BrokerDone(s.broker, part.value); }
  }

  lemma BrokerDone(b: P.State, step: P.Step)
    requires b.topology == Topology.PIPELINE && P.Enabled(b, step)
    ensures b.done <= P.Apply(b, step).done
  {
    P.Timing(b);
    match step
    case Publish(exec, wf) => P.PublishIs(b, exec, wf);
    case Handle(w, row, call) => P.NackIs(b, w);
    case Reply(w, ok) => P.NackIs(b, w);
    case Wake => P.WokenIs(b);
    case _ =>
  }

  lemma {:induction false} DoneStays(s: State, trace: seq<Step>)
    requires Inv(s, Nobody) && Legal(s, trace)
    ensures s.broker.done <= After(s, trace).broker.done
    decreases |trace|
  {
    if trace != [] {
      DoneGrows(s, trace[0]);
      StepKeepsInv(s, trace[0], Nobody);
      DoneStays(Apply(s, trace[0]), trace[1..]);
    }
  }
}
