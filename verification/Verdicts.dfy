/** Which executions reach a verdict: exactly which rows of a drained pipeline have one, and what strict honesty is
    needed for. */
module Verdicts {
  import opened Json
  import opened Events
  import opened Engine
  import opened System
  import opened SystemFacts
  import opened GiveUp
  import P = Protocol
  import PF = ProtocolFacts
  import Topology

  // ----- rows without a message -----

  ghost predicate Named(ledger: seq<P.Accepted>, e: nat) {
    exists i :: 0 <= i < |ledger| && ledger[i].exec == e
  }

  // The row of an execution whose message was never accepted: its publication failed.
  ghost predicate Orphan(s: State, e: nat) {
    e in s.rows && !Named(s.broker.ledger, e)
  }

  ghost predicate OrphansPending(s: State) {
    forall e :: Orphan(s, e) ==> s.rows[e].status == "pending"
  }

  lemma NamedGrows(before: seq<P.Accepted>, after: seq<P.Accepted>, e: nat)
    requires before <= after && Named(before, e)
    ensures Named(after, e)
  {
    var i :| 0 <= i < |before| && before[i].exec == e;
    assert after[i] == before[i];
  }

  lemma CallsAreNamed(s: State, c: nat)
    requires CallsOk(s.calls, s.broker.ledger) && c < |s.calls|
    ensures Named(s.broker.ledger, s.calls[c].exec)
  {
    assert CallOk(s.calls[c], s.broker.ledger);
  }

  lemma TriggerIs(s: State, wf: nat, sent: bool)
    requires s.broker.topology == Topology.PIPELINE
    ensures Apply(s, Trigger(wf, sent)).rows == s.rows[s.nextExec := Row(wf, "pending")]
    ensures Apply(s, Trigger(wf, sent)).broker.ledger
         == s.broker.ledger + if sent then [P.Accepted(s.nextExec, wf, s.broker.now)] else []
  {
    P.PublishIs(s.broker, s.nextExec, wf);
  }

  lemma PerformSpares(s: State, c: nat, e: nat)
    requires Inv(s, Nobody) && Enabled(s, Step.Perform(c)) && Orphan(s, e)
    ensures var t := Apply(s, Step.Perform(c));
            t.broker.ledger == s.broker.ledger && e in t.rows && t.rows[e] == s.rows[e]
  {
    Stores(s, c, Nobody);
    CallsAreNamed(s, c);
  }

  lemma TriggerSpares(s: State, wf: nat, sent: bool, e: nat)
    requires Inv(s, Nobody) && Orphan(s, e)
    ensures Orphan(Apply(s, Trigger(wf, sent)), e) && Apply(s, Trigger(wf, sent)).rows[e] == s.rows[e]
  {
    TriggerIs(s, wf, sent);
  }

  // A stored row stays an orphan, and what happens elsewhere does not touch it.
  lemma OrphanStays(s: State, step: Step, e: nat)
    requires Inv(s, Nobody) && Enabled(s, step) && Orphan(s, e)
    ensures Orphan(Apply(s, step), e) && Apply(s, step).rows[e] == s.rows[e]
  {
    match step
    case Trigger(wf, sent) => TriggerSpares(s, wf, sent, e);
    case Perform(c) => PerformSpares(s, c, e);
    case _ =>
      BrokerOnly(s, step);
      SameLedger(s, step);
  }

  lemma SameLedger(s: State, step: Step)
    requires s.broker.topology == Topology.PIPELINE && Enabled(s, step) && !step.Trigger?
    ensures Apply(s, step).broker.ledger == s.broker.ledger
  {
    var part := BrokerPart(s, step);
    if part.Some? { LedgerStays(s.broker, part.value); }
  }

  lemma NewOrphans(s: State, step: Step, e: nat)
    requires Inv(s, Nobody) && Enabled(s, step) && Orphan(Apply(s, step), e) && !Orphan(s, e)
    ensures Apply(s, step).rows[e].status == "pending"
  {
    LedgerExtends(s, step);
    if e in s.rows { NamedGrows(s.broker.ledger, Apply(s, step).broker.ledger, e); }
    match step
    case Trigger(wf, sent) => TriggerIs(s, wf, sent);
    case Perform(c) => Stores(s, c, Nobody);
    case _ => BrokerOnly(s, step);
  }

  lemma {:induction false} OrphansStayPending(s: State, trace: seq<Step>)
    requires Inv(s, Nobody) && OrphansPending(s) && Legal(s, trace)
    ensures OrphansPending(After(s, trace)) && Inv(After(s, trace), Nobody)
    decreases |trace|
  {
    if trace != [] {
      var t := Apply(s, trace[0]);
      forall e | Orphan(t, e) ensures t.rows[e].status == "pending" {
        if Orphan(s, e) { OrphanStays(s, trace[0], e); } else { NewOrphans(s, trace[0], e); }
      }
      StepKeepsInv(s, trace[0], Nobody);
      OrphansStayPending(t, trace[1..]);
    }
  }

  // In every run the row of an execution whose message was not accepted is pending.
  lemma OrphansArePending(n: nat, trace: seq<Step>)
    requires Legal(Init(n), trace)
    ensures OrphansPending(After(Init(n), trace))
  {
    InitInv(n, Nobody);
    OrphansStayPending(Init(n), trace);
  }

  // And stays so, whatever follows: nothing publishes its message later.
  lemma {:induction false} OrphanForGood(s: State, trace: seq<Step>, e: nat)
    requires Inv(s, Nobody) && Orphan(s, e) && Legal(s, trace)
    ensures Orphan(After(s, trace), e) && After(s, trace).rows[e] == s.rows[e]
    decreases |trace|
  {
    if trace != [] {
      OrphanStays(s, trace[0], e);
      StepKeepsInv(s, trace[0], Nobody);
      OrphanForGood(Apply(s, trace[0]), trace[1..], e);
    }
  }

  // ----- which rows have a verdict in the end -----

  // A row has a verdict if and only if its execution's message was settled below the retry limit, and is pending
  // otherwise.
  ghost predicate VerdictByCount(s: State, e: nat) {
    && (Terminal(StatusOf(s, e)) <==>
          exists i :: && 0 <= i < |s.broker.done| && s.broker.done[i].msg.exec == e
                      && Topology.DeathCount(s.broker.done[i].msg.deaths) < Topology.MAX_RETRIES)
    && (!Terminal(StatusOf(s, e)) <==> StatusOf(s, e) == "pending")
  }

  lemma SettledAlone(s: State, i: nat)
    requires Inv(s, Nobody) && i < |s.broker.done| && SettledByCount(s, s.broker.done[i])
    ensures VerdictByCount(s, s.broker.done[i].msg.exec)
  {
    forall j | 0 <= j < |s.broker.done| && s.broker.done[j].msg.exec == s.broker.done[i].msg.exec ensures j == i {
      PresentUnique(s, PF.Finished(i), PF.Finished(j));
    }
  }

  lemma DrainedSettles(s: State, id: nat) returns (i: nat)
    requires Inv(s, Nobody) && PF.Drained(s.broker) && id < |s.broker.ledger|
    ensures i < |s.broker.done| && s.broker.done[i].msg.id == id
    ensures s.broker.done[i].msg.exec == s.broker.ledger[id].exec
  {
    var p := PF.SomePlace(s.broker, id);
    i := p.i;
    PresentListed(s.broker, PF.Finished(i));
  }

  lemma OrphanUnsettled(s: State, e: nat)
    requires Inv(s, Nobody) && OrphansPending(s) && Orphan(s, e)
    ensures VerdictByCount(s, e)
  {
    forall i | 0 <= i < |s.broker.done| ensures s.broker.done[i].msg.exec != e {
      PresentListed(s.broker, PF.Finished(i));
    }
  }

  // The exact condition for "every execution reaches success or failed". In every run that has drained, the row of an
  // execution to whose message it was strictly honest has a verdict if and only if that message was accepted and
  // settled below the retry limit; otherwise the row is pending.
  lemma VerdictExactly(n: nat, trace: seq<Step>, e: nat)
    requires Legal(Init(n), trace) && PF.Drained(After(Init(n), trace).broker) && e in After(Init(n), trace).rows
    requires var ledger := After(Init(n), trace).broker.ledger;
             forall id: nat :: id < |ledger| && ledger[id].exec == e ==> AllHonest(Init(n), trace, Only(id, true))
    ensures VerdictByCount(After(Init(n), trace), e)
  {
    var s := After(Init(n), trace);
    Reached(n, trace, Nobody);
    OrphansArePending(n, trace);
    if Named(s.broker.ledger, e) {
      var id :| 0 <= id < |s.broker.ledger| && s.broker.ledger[id].exec == e;
      var i := DrainedSettles(s, id);
      SettledExactly(n, trace, i);
      SettledAlone(s, i);
    } else {
      OrphanUnsettled(s, e);
    }
  }

  lemma Unsent(n: nat, wf: nat)
    ensures var s := Apply(Init(n), Trigger(wf, false));
            && PF.Drained(s.broker) && s.broker.done == [] && s.rows == map[1 := Row(wf, "pending")] && Orphan(s, 1)
  {
  }

  // One trigger whose publication fails, and nothing else: all is strictly honest and the pipeline drained, no message
  // is settled, and the row is pending; for good, by OrphanForGood.
  lemma OrphanRun(n: nat, wf: nat) returns (s: State, trace: seq<Step>)
    ensures Reaches(Init(n), trace, s) && trace == [Trigger(wf, false)]
    ensures forall id: nat :: AllHonest(Init(n), trace, Only(id, true))
    ensures Inv(s, Nobody) && PF.Drained(s.broker) && s.broker.done == []
    ensures s.rows == map[1 := Row(wf, "pending")] && Orphan(s, 1)
  {
    Unsent(n, wf);
    InitInv(n, Nobody);
    s, trace := FirstStep(Init(n), Trigger(wf, false));
    AllPatient(n, trace);
  }

  lemma FirstStep(s: State, x: Step) returns (t: State, trace: seq<Step>)
    requires Inv(s, Nobody) && Enabled(s, x) && GaveUp(x).None?
    ensures Reaches(s, trace, t) && trace == [x] && t == Apply(s, x) && Inv(t, Nobody) && Patient(trace)
  {
    t, trace := Apply(s, x), [x];
    OneStep(s, x);
    ReachesInv(s, trace, t);
  }

  lemma AllPatient(n: nat, trace: seq<Step>)
    requires Legal(Init(n), trace) && Patient(trace)
    ensures forall id: nat :: AllHonest(Init(n), trace, Only(id, true))
  {
    forall id: nat ensures AllHonest(Init(n), trace, Only(id, true)) {
      PatientIsHonest(Init(n), trace, Only(id, true));
    }
  }

  // ----- a message that is dropped at the limit -----

  // k failed row lookups of worker w.
  function Lookups(w: nat, k: nat): seq<Step> {
    if k == 0 then [] else [Take(w, true, None, [])] + Lookups(w, k - 1)
  }

  lemma {:induction false} LookupsArePatient(w: nat, k: nat)
    ensures Patient(Lookups(w, k))
  {
    if k > 0 { LookupsArePatient(w, k - 1); }
  }

  lemma FailIs(s: State, w: nat, m: P.Message)
    requires s.broker.topology == Topology.PIPELINE && Holds(s, w, m)
    requires Topology.DeathCount(m.deaths) < Topology.MAX_RETRIES
    ensures var t := Apply(s, Take(w, true, None, []));
            && Kept(s, t) && Free(t, w) && t.broker.retryQ == s.broker.retryQ + [P.Parked(P.Rejected(m), s.broker.now)]
  {
    P.NackIs(s.broker, w);
  }

  lemma FailLookup(s: State, w: nat, m: P.Message) returns (t: State, trace: seq<Step>)
    requires Inv(s, Nobody) && Holds(s, w, m) && m.nacks < Topology.MAX_RETRIES
    ensures Reaches(s, trace, t) && Given(trace) == Lookups(w, 1) && Inv(t, Nobody) && Kept(s, t) && Free(t, w)
    ensures t.broker.retryQ == s.broker.retryQ + [P.Parked(P.Rejected(m), s.broker.now)]
  {
    var x := Take(w, true, None, []);
    Callable(s, w, m);
    FailIs(s, w, m);
    t, trace := Apply(s, x), [x];
    OneStep(s, x);
    ReachesInv(s, trace, t);
  }

  lemma KeptBeside(s: State, t: State, u: State, id: nat)
    requires Beside(s, t, id) && Kept(t, u)
    ensures Beside(s, u, id)
  {
  }

  // One more failed try: from anywhere in the queue the message comes to a worker, whose row lookup fails, waits out
  // its time in the retry queue, and comes back with one more rejection.
  lemma FailedTry(s: State, w: nat, i: nat, m: P.Message) returns (t: State, trace: seq<Step>, k: nat)
    requires Inv(s, Nobody) && Free(s, w) && i < |s.broker.runQ| && s.broker.runQ[i] == m
    requires m.nacks < Topology.MAX_RETRIES
    ensures Reaches(s, trace, t) && Given(trace) == Lookups(w, 1) && Inv(t, Nobody) && Beside(s, t, m.id)
    ensures Queued(t, w, k, m) && t.broker.runQ[k].nacks == m.nacks + 1
  {
    var u, first := Fetch(s, w, i);
    var v, second := FailLookup(u, w, m);
    var third;
    t, third, k := FromRetry(u, v, w, m);
    Join(s, first, u, second, v);
    Join(s, first + second, v, third, t);
    trace := first + second + third;
    ReachesInv(s, trace, t);
    KeptBeside(s, u, t, m.id);
  }

  predicate DroppedAt(t: State, id: nat, j: nat) {
    j < |t.broker.done| && t.broker.done[j].msg.id == id && t.broker.done[j].how == P.RetriesExhausted
  }

  lemma DropAtLast(s: State, w: nat, i: nat, m: P.Message) returns (t: State, trace: seq<Step>, j: nat)
    requires Inv(s, Nobody) && Free(s, w) && i < |s.broker.runQ| && s.broker.runQ[i] == m
    requires m.nacks >= Topology.MAX_RETRIES
    ensures Leads(s, trace, t) && Inv(t, Nobody) && Beside(s, t, m.id) && DroppedAt(t, m.id, j)
  {
    var u, first := Fetch(s, w, i);
    var second;
    t, second := Drop(u, w, m);
    Join(s, first, u, second, t);
    trace := first + second;
    ReachesInv(s, trace, t);
    KeptBeside(s, u, t, m.id);
    j := |u.broker.done|;
  }

  ghost predicate Exhausts(s: State, trace: seq<Step>, t: State, w: nat, m: P.Message, j: nat) {
    && m.nacks <= Topology.MAX_RETRIES
    && Reaches(s, trace, t) && Given(trace) == Lookups(w, Topology.MAX_RETRIES - m.nacks)
    && Inv(t, Nobody) && Beside(s, t, m.id) && DroppedAt(t, m.id, j)
  }

  lemma OneMoreTry(s: State, first: seq<Step>, u: State, rest: seq<Step>, t: State, w: nat, m: P.Message,
                   next: P.Message, j: nat)
    requires Reaches(s, first, u) && Given(first) == Lookups(w, 1) && Beside(s, u, m.id)
    requires next.id == m.id && next.nacks == m.nacks + 1 && Exhausts(u, rest, t, w, next, j)
    ensures Exhausts(s, first + rest, t, w, m, j)
  {
    Join(s, first, u, rest, t);
    BesideOn(s, u, t, m.id);
    OneMoreLookup(w, Topology.MAX_RETRIES - m.nacks);
  }

  lemma OneMoreLookup(w: nat, k: nat)
    requires k > 0
    ensures Lookups(w, 1) + Lookups(w, k - 1) == Lookups(w, k)
  {
    assert Lookups(w, 1) == [Take(w, true, None, [])];
  }

  // From any state in which a message is queued, failed row lookups alone lead to its being dropped at the limit.
  lemma {:induction false} Exhaust(s: State, w: nat, i: nat, m: P.Message) returns (t: State, trace: seq<Step>, j: nat)
    requires Inv(s, Nobody) && Free(s, w) && i < |s.broker.runQ| && s.broker.runQ[i] == m
    requires m.nacks <= Topology.MAX_RETRIES
    ensures Exhausts(s, trace, t, w, m, j)
    decreases Topology.MAX_RETRIES - m.nacks
  {
    if m.nacks >= Topology.MAX_RETRIES {
      t, trace, j := DropAtLast(s, w, i, m);
    } else {
      var u, first, k := FailedTry(s, w, i, m);
      var rest: seq<Step>;
      var next := u.broker.runQ[k];
      t, rest, j := Exhaust(u, w, k, next);
      OneMoreTry(s, first, u, rest, t, w, m, next, j);
      trace := first + rest;
    }
  }

  // ----- what strict honesty is for -----

  // Without a worker giving up on any further call, some continuation settles message id against its count.
  ghost predicate CanSettleWrongly(s: State, id: nat) {
    exists trace, i: nat ::
      && Legal(s, trace) && Patient(trace) && i < |After(s, trace).broker.done|
      && After(s, trace).broker.done[i].msg.id == id && !SettledByCount(After(s, trace), After(s, trace).broker.done[i])
  }

  lemma Loosened(s: State, id: nat)
    requires Inv(s, Only(id, true))
    ensures Inv(s, Only(id, false))
  {
    forall m, stage | Tally(s.calls, Only(id, true), m, stage) ensures Tally(s.calls, Only(id, false), m, stage) {}
  }

  lemma PatienceSettlesRight(s: State, id: nat)
    requires Inv(s, Only(id, true))
    ensures !CanSettleWrongly(s, id)
  {
    forall trace, i: nat | Legal(s, trace) && Patient(trace) && i < |After(s, trace).broker.done|
                           && After(s, trace).broker.done[i].msg.id == id
      ensures SettledByCount(After(s, trace), After(s, trace).broker.done[i]) {
      PatientIsHonest(s, trace, Only(id, true));
      ReachableInv(s, trace, Only(id, true));
      SettledIn(After(s, trace), i, Only(id, true));
    }
  }

  lemma DropIsWrong(s: State, id: nat, j: nat)
    requires Inv(s, Nobody) && DroppedAt(s, id, j) && Terminal(StatusOf(s, s.broker.ledger[id].exec))
    requires id < |s.broker.ledger|
    ensures !SettledByCount(s, s.broker.done[j])
  {
    PresentListed(s.broker, PF.Finished(j));
  }

  // The call given up runs to its verdict; then failed row lookups drop the message.
  lemma SettlesWrongly(t: State, w: nat, i: nat, m: P.Message, c: nat) returns (u: State, trace: seq<Step>, j: nat)
    requires Queued(t, w, i, m) && Underway(t, c) && t.calls[c].exec == m.exec && t.calls[c].msg == m.id
    ensures Reaches(t, trace, u) && Patient(trace) && DroppedAt(u, m.id, j) && !SettledByCount(u, u.broker.done[j])
  {
    var v, first := Finish(t, c);
    FinishedVerdict(v, c);
    assert P.ReadyOk(v.broker.runQ[i], v.broker.now);
    PresentListed(v.broker, PF.InRun(i));
    var rest;
    u, rest, j := Exhaust(v, w, i, v.broker.runQ[i]);
    Join(t, first, v, rest, u);
    trace := first + rest;
    LookupsArePatient(w, Topology.MAX_RETRIES - v.broker.runQ[i].nacks);
    PatientIfGiven(trace);
    DropIsWrong(u, m.id, j);
  }

  lemma DishonestSettlesWrongly(s: State, step: Step, id: nat)
    requires Inv(s, Only(id, true)) && id < |s.broker.ledger| && Enabled(s, step) && !Honest(s, step, Only(id, true))
    ensures CanSettleWrongly(Apply(s, step), id)
  {
    var w := GaveUp(step).value;
    var u, m := Apply(s, step), s.broker.workers[w].msg;
    Unwatched(s, Only(id, true));
    Loosened(s, id);
    var t, back, i := ComesBack(s, step, w);
    StillUnderway(s, t, w);
    var v, rest, j := SettlesWrongly(t, w, i, m, s.broker.workers[w].call);
    Join(u, back, t, rest, v);
    PatientIfGiven(back);
    SettlesWrongAt(u, back + rest, v, id, j);
  }

  lemma SettlesWrongAt(u: State, trace: seq<Step>, v: State, id: nat, j: nat)
    requires Reaches(u, trace, v) && Patient(trace) && DroppedAt(v, id, j) && !SettledByCount(v, v.broker.done[j])
    ensures CanSettleWrongly(u, id)
  {
  }

  // Step by step: as long as a message is sure to be settled by its count unless a worker gives up on a call, a step
  // keeps it so if and only if it is strictly honest towards that message.
  lemma StrictlyExactly(s: State, step: Step, id: nat)
    requires Inv(s, Only(id, true)) && id < |s.broker.ledger| && Enabled(s, step)
    ensures Honest(s, step, Only(id, true)) <==> !CanSettleWrongly(Apply(s, step), id)
  {
    if Honest(s, step, Only(id, true)) {
      StepKeepsInv(s, step, Only(id, true));
      PatienceSettlesRight(Apply(s, step), id);
    } else {
      DishonestSettlesWrongly(s, step, id);
    }
  }
}
