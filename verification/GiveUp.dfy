/** When a worker gives up on an engine call that is alive: exactly when that can make the execution run twice. */
module GiveUp {
  import opened Json
  import opened Sequences
  import opened Events
  import opened Engine
  import opened System
  import opened SystemFacts
  import P = Protocol
  import PF = ProtocolFacts
  import Topology

  // ----- a message on its last delivery is never dispatched again -----

  predicate Last(m: P.Message, id: nat) {
    m.id == id ==> m.nacks >= Topology.MAX_RETRIES
  }

  ghost predicate Spent(b: P.State, id: nat) {
    && (forall i :: 0 <= i < |b.runQ| ==> Last(b.runQ[i], id))
    && (forall i :: 0 <= i < |b.retryQ| ==> Last(b.retryQ[i].msg, id))
    && (forall i :: 0 <= i < |b.workers| ==> P.Holding(b.workers[i]) ==> Last(b.workers[i].msg, id))
  }

  lemma NackStaysSpent(b: P.State, w: nat, id: nat)
    requires b.topology == Topology.PIPELINE && Spent(b, id) && w < |b.workers| && P.Holding(b.workers[w])
    ensures Spent(P.Nack(b, w), id)
  {
    P.NackIs(b, w);
  }

  lemma LoseStaysSpent(b: P.State, w: nat, pos: nat, id: nat)
    requires Spent(b, id) && P.Enabled(b, P.Lose(w, pos))
    ensures Spent(P.Apply(b, P.Lose(w, pos)), id)
  {
    if P.Holding(b.workers[w]) {
      var m := b.workers[w].msg;
      var q := b.runQ[..pos] + [m.(losses := m.losses + 1)] + b.runQ[pos..];
      forall i | 0 <= i < |q| ensures Last(q[i], id) {
        if i < pos { assert q[i] == b.runQ[i]; }
        else if i > pos { assert q[i] == b.runQ[i - 1]; }
      }
    }
  }

  lemma HandleStaysSpent(b: P.State, w: nat, row: P.Lookup, call: nat, id: nat)
    requires b.topology == Topology.PIPELINE && Spent(b, id) && P.Enabled(b, P.Handle(w, row, call))
    ensures Spent(P.Apply(b, P.Handle(w, row, call)), id)
  {
    match P.Decide(b.workers[w].msg.deaths, row)
    case Requeue => NackStaysSpent(b, w, id);
    case _ =>
  }

  lemma BrokerStaysSpent(b: P.State, step: P.Step, id: nat)
    requires b.topology == Topology.PIPELINE && Spent(b, id) && P.Enabled(b, step) && id < |b.ledger|
    ensures Spent(P.Apply(b, step), id)
  {
    P.Timing(b);
    match step
    case Publish(exec, wf) => P.PublishIs(b, exec, wf);
    case Handle(w, row, call) => HandleStaysSpent(b, w, row, call, id);
    case Reply(w, ok) => if !ok { NackStaysSpent(b, w, id); }
    case Wake => P.WokenIs(b);
    case Lose(w, pos) => LoseStaysSpent(b, w, pos, id);
    case _ =>
  }

  lemma StaysSpent(s: State, step: Step, id: nat)
    requires s.broker.topology == Topology.PIPELINE && Spent(s.broker, id) && Enabled(s, step) && id < |s.broker.ledger|
    ensures Spent(Apply(s, step).broker, id)
  {
    var part := BrokerPart(s, step);
    if part.Some? { BrokerStaysSpent(s.broker, part.value, id); }
  }

  lemma SpentNotCalled(s: State, w: nat, dbError: bool, id: nat)
    requires P.Inv(s.broker) && Spent(s.broker, id) && w < |s.broker.workers| && s.broker.workers[w].Got?
    ensures StartsCall(s.broker, TakeStep(s, w, dbError)) ==> s.broker.workers[w].msg.id != id
  {
    assert P.SlotOk(s.broker.workers[w], s.broker.now);
    P.CountIsNacks(s.broker.workers[w].msg, s.broker.now);
  }

  lemma PerformCalls(s: State, c: nat, id: nat)
    requires Enabled(s, Step.Perform(c))
    ensures CallsFor(Apply(s, Step.Perform(c)).calls, id) == CallsFor(s.calls, id)
  {
    PerformedCalls(s, c);
    CountSwap(s.calls, c, Advanced(s.calls[c]), id);
  }

  lemma SpentCalls(s: State, step: Step, id: nat)
    requires P.Inv(s.broker) && Spent(s.broker, id) && Enabled(s, step)
    ensures CallsFor(Apply(s, step).calls, id) == CallsFor(s.calls, id)
  {
    match step
    case Take(w, dbError, parsed, obs) => SpentTake(s, w, dbError, parsed, obs, id);
    case Perform(c) => PerformCalls(s, c, id);
    case Refuse(c) => CountSwap(s.calls, c, s.calls[c].(refused := true), id);
    case _ =>
  }

  lemma SpentTake(s: State, w: nat, dbError: bool, parsed: Option<seq<StepDef>>, obs: seq<Obs>, id: nat)
    requires P.Inv(s.broker) && Spent(s.broker, id) && Enabled(s, Take(w, dbError, parsed, obs))
    ensures CallsFor(Apply(s, Take(w, dbError, parsed, obs)).calls, id) == CallsFor(s.calls, id)
  {
    SpentNotCalled(s, w, dbError, id);
    var m := s.broker.workers[w].msg;
    CountSnoc(s.calls, Attempt(m.exec, m.id, parsed, obs, 0, false), id);
  }

  lemma SpentHonest(s: State, step: Step, id: nat)
    requires P.Inv(s.broker) && Spent(s.broker, id) && Enabled(s, step)
    ensures Honest(s, step, Only(id, false)) && Honest(s, step, Only(id, true))
  {
    var w := GaveUp(step);
    if w.Some? && Waiting(s, w.value) { assert P.SlotOk(s.broker.workers[w.value], s.broker.now); }
  }

  // Whatever follows, the engine is not called for it again, and nothing dishonest towards it can happen.
  lemma {:induction false} SpentForGood(s: State, trace: seq<Step>, id: nat)
    requires Inv(s, Nobody) && Spent(s.broker, id) && id < |s.broker.ledger| && Legal(s, trace)
    ensures CallsFor(After(s, trace).calls, id) == CallsFor(s.calls, id)
    ensures AllHonest(s, trace, Only(id, false)) && AllHonest(s, trace, Only(id, true))
    ensures Spent(After(s, trace).broker, id) && s.broker.ledger <= After(s, trace).broker.ledger
    decreases |trace|
  {
    if trace != [] {
      SpentCalls(s, trace[0], id);
      SpentHonest(s, trace[0], id);
      StaysSpent(s, trace[0], id);
      StepKeepsInv(s, trace[0], Nobody);
      LedgerExtends(s, trace[0]);
      SpentForGood(Apply(s, trace[0]), trace[1..], id);
    }
  }

  // ----- continuations -----

  // What the pipeline does not do by itself: a trigger, or a fault, that is, an error reply, a lost connection, a
  // failed row lookup or a refused call.
  predicate Outside(step: Step) {
    step.Trigger? || step.Refuse? || (step.Take? && step.dbError) || GaveUp(step).Some?
  }

  // The triggers and faults of a run, in order.
  function Given(trace: seq<Step>): seq<Step> {
    if trace == [] then [] else (if Outside(trace[0]) then [trace[0]] else []) + Given(trace[1..])
  }

  lemma {:induction false} GivenAppend(a: seq<Step>, b: seq<Step>)
    ensures Given(a + b) == Given(a) + Given(b)
  {
    if a == [] { assert a + b == b; }
    else {
      var first := if Outside(a[0]) then [a[0]] else [];
      assert (a + b)[1..] == a[1..] + b;
      GivenAppend(a[1..], b);
      Assoc(first, Given(a[1..]), Given(b));
    }
  }

  // No worker gives up on a call.
  predicate Patient(trace: seq<Step>) {
    forall k :: 0 <= k < |trace| ==> GaveUp(trace[k]).None?
  }

  lemma {:induction false} PatientIfGiven(trace: seq<Step>)
    requires Patient(Given(trace))
    ensures Patient(trace)
  {
    if trace != [] {
      var first := if Outside(trace[0]) then [trace[0]] else [];
      var later := Given(trace[1..]);
      assert forall k :: 0 <= k < |later| ==> (first + later)[|first| + k] == later[k];
      PatientIfGiven(trace[1..]);
      assert first != [] ==> (first + later)[0] == trace[0];
      assert forall k :: 0 < k < |trace| ==> trace[k] == trace[1..][k - 1];
    }
  }

  lemma {:induction false} PatientIsHonest(s: State, trace: seq<Step>, watch: Watch)
    requires Legal(s, trace) && Patient(trace)
    ensures AllHonest(s, trace, watch)
    decreases |trace|
  {
    if trace != [] {
      assert Patient(trace[1..]);
      PatientIsHonest(Apply(s, trace[0]), trace[1..], watch);
    }
  }

  ghost predicate Reaches(s: State, trace: seq<Step>, t: State) {
    Legal(s, trace) && After(s, trace) == t
  }

  // Left to itself, the pipeline can get from s to t: without any trigger or fault.
  ghost predicate Leads(s: State, trace: seq<Step>, t: State) {
    Reaches(s, trace, t) && Given(trace) == []
  }

  lemma OneStep(s: State, step: Step)
    requires Enabled(s, step)
    ensures Reaches(s, [step], Apply(s, step)) && Given([step]) == if Outside(step) then [step] else []
  {
    assert [step][1..] == [] && Legal(Apply(s, step), []);
  }

  lemma Join(s: State, a: seq<Step>, t: State, b: seq<Step>, u: State)
    requires Reaches(s, a, t) && Reaches(t, b, u)
    ensures Reaches(s, a + b, u) && Given(a + b) == Given(a) + Given(b)
  {
    Then(s, a, b);
    GivenAppend(a, b);
  }

  lemma ReachesInv(s: State, trace: seq<Step>, t: State)
    requires Inv(s, Nobody) && Reaches(s, trace, t)
    ensures Inv(t, Nobody)
  {
    ReachableInv(s, trace, Nobody);
  }

  // A call on its way: it can be carried to its end, which stores its verdict.
  ghost predicate Underway(s: State, c: nat) {
    Inv(s, Nobody) && OnItsWay(s, c)
  }

  predicate OnItsWay(s: State, c: nat) {
    && c < |s.calls| && Open(s.calls[c]) && s.calls[c].pc <= |ScriptOf(s.calls[c])|
    && s.calls[c].exec in s.rows && s.rows[s.calls[c].exec].status == Progressed(s.calls[c])
  }

  // At most the status of row e differs.
  predicate OnlyRow(s: State, t: State, e: nat) {
    && t.rows.Keys == s.rows.Keys
    && forall x :: x in s.rows ==> t.rows[x].wf == s.rows[x].wf && (x != e ==> t.rows[x] == s.rows[x])
  }

  lemma OneEffect(s: State, c: nat)
    requires Underway(s, c) && s.calls[c].pc < |ScriptOf(s.calls[c])|
    ensures Enabled(s, Step.Perform(c)) && Underway(Apply(s, Step.Perform(c)), c)
    ensures var t := Apply(s, Step.Perform(c));
            t.broker == s.broker && t.calls == s.calls[c := Advanced(s.calls[c])] && OnlyRow(s, t, s.calls[c].exec)
  {
    Stores(s, c, Nobody);
    EffectIs(s, c, Apply(s, Step.Perform(c)));
    StepKeepsInv(s, Step.Perform(c), Nobody);
  }

  lemma EffectIs(s: State, c: nat, t: State)
    requires OnItsWay(s, c) && s.calls[c].pc < |ScriptOf(s.calls[c])| && t.calls == s.calls[c := Advanced(s.calls[c])]
    requires var x := ScriptOf(s.calls[c])[s.calls[c].pc];
             var e := s.calls[c].exec;
             t.rows == if x.SetStatus? then s.rows[e := s.rows[e].(status := x.status)] else s.rows
    ensures OnItsWay(t, c) && OnlyRow(s, t, s.calls[c].exec)
  {
    ProgressedStep(s.calls[c]);
    assert ScriptOf(Advanced(s.calls[c])) == ScriptOf(s.calls[c]);
  }

  // Call c has run to its end, and nothing else has happened.
  predicate RunOut(s: State, t: State, c: nat) {
    && OnItsWay(t, c) && t.broker == s.broker && c < |s.calls| && Open(s.calls[c])
    && OnlyRow(s, t, s.calls[c].exec) && t.calls == s.calls[c := s.calls[c].(pc := |ScriptOf(s.calls[c])|)]
    && Complete(t.calls[c])
  }

  lemma AlreadyOut(s: State, c: nat)
    requires OnItsWay(s, c) && s.calls[c].pc == |ScriptOf(s.calls[c])|
    ensures RunOut(s, s, c)
  {
    assert s.calls == s.calls[c := s.calls[c].(pc := |ScriptOf(s.calls[c])|)];
  }

  lemma RunOutAfter(s: State, u: State, t: State, c: nat)
    requires OnItsWay(s, c) && u.broker == s.broker && OnlyRow(s, u, s.calls[c].exec)
    requires u.calls == s.calls[c := Advanced(s.calls[c])] && RunOut(u, t, c)
    ensures RunOut(s, t, c)
  {
    SameScript(s.calls[c]);
  }

  lemma EffectThen(s: State, c: nat, u: State, rest: seq<Step>, t: State)
    requires Enabled(s, Step.Perform(c)) && u == Apply(s, Step.Perform(c)) && Leads(u, rest, t)
    ensures Leads(s, [Step.Perform(c)] + rest, t)
  {
    OneStep(s, Step.Perform(c));
    Join(s, [Step.Perform(c)], u, rest, t);
  }

  lemma {:induction false} Finish(s: State, c: nat) returns (t: State, trace: seq<Step>)
    requires Underway(s, c)
    ensures Leads(s, trace, t) && Inv(t, Nobody) && RunOut(s, t, c)
    decreases |ScriptOf(s.calls[c])| - s.calls[c].pc
  {
    if s.calls[c].pc == |ScriptOf(s.calls[c])| {
      t, trace := s, [];
      AlreadyOut(s, c);
    } else {
      OneEffect(s, c);
      var u := Apply(s, Step.Perform(c));
      SameScript(s.calls[c]);
      var rest: seq<Step>;
      t, rest := Finish(u, c);
      EffectThen(s, c, u, rest, t);
      RunOutAfter(s, u, t, c);
      trace := [Step.Perform(c)] + rest;
    }
  }

  lemma SameScript(a: Attempt)
    requires WellFormed(a.parsed, a.obs)
    ensures ScriptOf(Advanced(a)) == ScriptOf(a)
  {
  }

  lemma FinishedVerdict(s: State, c: nat)
    requires Underway(s, c) && Complete(s.calls[c])
    ensures Terminal(StatusOf(s, s.calls[c].exec))
    ensures LogsOfCall(s.logs, c) == LogsOf(ScriptOf(s.calls[c]))
  {
    ScriptStatus(s.calls[c]);
    assert CallLogs(s.logs, s.calls[c], c);
    assert ScriptOf(s.calls[c])[..s.calls[c].pc] == ScriptOf(s.calls[c]);
  }

  // ----- bringing a message back to the engine -----

  // Nothing but the broker has changed since s.
  predicate Kept(s: State, t: State) {
    && t.broker.topology == Topology.PIPELINE && t.broker.ledger == s.broker.ledger
    && t.rows == s.rows && t.nextExec == s.nextExec && t.calls == s.calls && t.logs == s.logs
  }

  // Nothing has changed for message id since s: other messages were handled.
  predicate Beside(s: State, t: State, id: nat) {
    && t.broker.ledger == s.broker.ledger && s.calls <= t.calls && CallsFor(t.calls, id) == CallsFor(s.calls, id)
    && (id < |s.broker.ledger| ==> StatusOf(t, s.broker.ledger[id].exec) == StatusOf(s, s.broker.ledger[id].exec))
    && t.rows.Keys == s.rows.Keys && forall e :: e in s.rows ==> t.rows[e].wf == s.rows[e].wf
  }

  predicate Free(t: State, w: nat) {
    w < |t.broker.workers| && t.broker.workers[w].Idle?
  }

  predicate Holds(t: State, w: nat, m: P.Message) {
    w < |t.broker.workers| && t.broker.workers[w] == P.Got(m)
  }

  lemma Receive(s: State, w: nat) returns (t: State, trace: seq<Step>)
    requires Kept(s, s) && Free(s, w) && s.broker.runQ != []
    ensures Leads(s, trace, t) && Kept(s, t) && Holds(t, w, s.broker.runQ[0])
    ensures t.broker == s.broker.(workers := s.broker.workers[w := P.Got(s.broker.runQ[0])], runQ := s.broker.runQ[1..])
  {
    var x := Pass(P.Deliver(w));
    t, trace := Apply(s, x), [x];
    OneStep(s, x);
  }

  lemma DropIs(s: State, w: nat, m: P.Message)
    requires Holds(s, w, m) && Topology.DeathCount(m.deaths) >= Topology.MAX_RETRIES
    ensures Apply(s, Take(w, false, None, [])) == s.(broker := P.Settle(s.broker, w, P.RetriesExhausted))
  {
  }

  // A message without a delivery left is dropped.
  lemma Drop(s: State, w: nat, m: P.Message) returns (t: State, trace: seq<Step>)
    requires Inv(s, Nobody) && Holds(s, w, m) && m.nacks >= Topology.MAX_RETRIES
    ensures Leads(s, trace, t) && Kept(s, t) && t.broker == P.Settle(s.broker, w, P.RetriesExhausted)
  {
    var x := Take(w, false, None, []);
    assert P.SlotOk(s.broker.workers[w], s.broker.now);
    P.CountIsNacks(m, s.broker.now);
    DropIs(s, w, m);
    t, trace := Apply(s, x), [x];
    OneStep(s, x);
  }

  lemma Callable(s: State, w: nat, m: P.Message)
    requires Inv(s, Nobody) && Holds(s, w, m) && m.nacks < Topology.MAX_RETRIES
    ensures m.exec in s.rows && Topology.DeathCount(m.deaths) < Topology.MAX_RETRIES
  {
    assert P.SlotOk(s.broker.workers[w], s.broker.now);
    P.CountIsNacks(m, s.broker.now);
    RowFound(s, w, Nobody);
  }

  lemma CallIs(s: State, w: nat, m: P.Message, parsed: Option<seq<StepDef>>, obs: seq<Obs>)
    requires Holds(s, w, m) && m.exec in s.rows && Topology.DeathCount(m.deaths) < Topology.MAX_RETRIES
    requires WellFormed(parsed, obs)
    ensures Apply(s, Take(w, false, parsed, obs))
         == s.(broker := s.broker.(workers := s.broker.workers[w := P.Calling(m.(runs := m.runs + 1), |s.calls|)]),
               calls := s.calls + [Attempt(m.exec, m.id, parsed, obs, 0, false)])
  {
  }

  // A message with a delivery left goes to the engine.
  lemma Call(s: State, w: nat, m: P.Message, parsed: Option<seq<StepDef>>, obs: seq<Obs>)
    returns (t: State, trace: seq<Step>)
    requires Inv(s, Nobody) && Holds(s, w, m) && m.nacks < Topology.MAX_RETRIES && WellFormed(parsed, obs)
    ensures Leads(s, trace, t) && Inv(t, Nobody) && t.rows == s.rows && t.broker.ledger == s.broker.ledger
    ensures t.calls == s.calls + [Attempt(m.exec, m.id, parsed, obs, 0, false)]
    ensures t.broker.runQ == s.broker.runQ && w < |t.broker.workers|
    ensures t.broker.workers[w] == P.Calling(m.(runs := m.runs + 1), |s.calls|)
  {
    var x := Take(w, false, parsed, obs);
    Callable(s, w, m);
    CallIs(s, w, m, parsed, obs);
    t, trace := Apply(s, x), [x];
    OneStep(s, x);
    ReachesInv(s, trace, t);
  }

  // A new call for an execution, whatever its status, puts its row to running.
  lemma Restart(s: State, c: nat) returns (t: State, trace: seq<Step>)
    requires Inv(s, Nobody) && c < |s.calls| && Open(s.calls[c]) && s.calls[c].pc == 0
    ensures Leads(s, trace, t) && Underway(t, c) && StatusOf(t, s.calls[c].exec) == "running"
    ensures t.calls == s.calls[c := Advanced(s.calls[c])] && t.broker == s.broker && OnlyRow(s, t, s.calls[c].exec)
  {
    var x := Step.Perform(c);
    t, trace := Apply(s, x), [x];
    OneStep(s, x);
    ReachesInv(s, trace, t);
    RestartIs(s, c);
    AsRestarted(s, c, t);
  }

  lemma AsRestarted(s: State, c: nat, t: State)
    requires c < |s.calls| && Open(s.calls[c]) && s.calls[c].pc == 0 && s.calls[c].exec in s.rows
    requires var e := s.calls[c].exec;
             t == s.(rows := s.rows[e := s.rows[e].(status := "running")], calls := s.calls[c := Advanced(s.calls[c])])
    ensures t.calls == s.calls[c := Advanced(s.calls[c])] && t.broker == s.broker && OnlyRow(s, t, s.calls[c].exec)
    ensures OnItsWay(t, c) && StatusOf(t, s.calls[c].exec) == "running"
  {
    FirstProgress(s.calls[c]);
    assert ScriptOf(s.calls[c])[0] == SetStatus("running");
  }

  lemma RestartIs(s: State, c: nat)
    requires Inv(s, Nobody) && c < |s.calls| && Open(s.calls[c]) && s.calls[c].pc == 0
    ensures s.calls[c].exec in s.rows
    ensures var e := s.calls[c].exec;
            Apply(s, Step.Perform(c)) == s.(rows := s.rows[e := s.rows[e].(status := "running")],
                                            calls := s.calls[c := Advanced(s.calls[c])])
  {
    assert ScriptOf(s.calls[c])[0] == SetStatus("running");
    Stores(s, c, Nobody);
  }

  lemma FirstProgress(a: Attempt)
    requires Open(a) && a.pc == 0
    ensures Progressed(Advanced(a)) == "running" && ScriptOf(Advanced(a)) == ScriptOf(a)
  {
    assert ScriptOf(a)[..0] == [];
    ProgressedStep(a);
  }

  lemma AnswerIs(s: State, w: nat)
    requires Enabled(s, Answer(w, true))
    ensures Apply(s, Answer(w, true)) == s.(broker := P.Settle(s.broker, w, P.Replied))
  {
  }

  lemma Conclude(s: State, w: nat, c: nat) returns (t: State, trace: seq<Step>)
    requires Inv(s, Nobody) && c < |s.calls| && Complete(s.calls[c]) && w < |s.broker.workers|
    requires s.broker.workers[w].Calling? && s.broker.workers[w].call == c
    ensures Leads(s, trace, t) && Inv(t, Nobody) && t.rows == s.rows && t.calls == s.calls && Free(t, w)
    ensures t.broker.ledger == s.broker.ledger && t.broker.runQ == s.broker.runQ
  {
    var x := Answer(w, true);
    AnswerIs(s, w);
    t, trace := Apply(s, x), [x];
    OneStep(s, x);
    ReachesInv(s, trace, t);
  }

  lemma ExtendedBy(a: seq<Attempt>, b: seq<Attempt>, id: nat)
    requires |b| == |a| + 1 && a <= b
    ensures CallsFor(b, id) == CallsFor(a, id) + if b[|a|].msg == id then 1 else 0
  {
    assert b == a + [b[|a|]];
    CountSnoc(a, b[|a|], id);
  }

  // The engine runs a message's execution to its end, as a workflow without steps.
  lemma RunEmpty(s: State, w: nat, m: P.Message) returns (t: State, trace: seq<Step>)
    requires Inv(s, Nobody) && Holds(s, w, m) && m.nacks < Topology.MAX_RETRIES
    ensures Leads(s, trace, t) && Inv(t, Nobody) && RanOnce(s, t, m)
    ensures w < |t.broker.workers| && t.broker.workers[w] == P.Calling(m.(runs := m.runs + 1), |s.calls|)
  {
    var c := |s.calls|;
    var u, first := Call(s, w, m, Some([]), []);
    var v, second := Restart(u, c);
    var third;
    t, third := Finish(v, c);
    Join(s, first, u, second, v);
    Join(s, first + second, v, third, t);
    trace := first + second + third;
    RunsOnce(s, u, v, t, m);
  }

  // One complete call for message m has been added, and only the row of its execution has changed.
  predicate RanOnce(s: State, t: State, m: P.Message) {
    && OnlyRow(s, t, m.exec) && t.broker.ledger == s.broker.ledger && t.broker.runQ == s.broker.runQ
    && |t.calls| == |s.calls| + 1 && s.calls <= t.calls && t.calls[|s.calls|].msg == m.id
    && Complete(t.calls[|s.calls|])
  }

  lemma RunsOnce(s: State, u: State, v: State, t: State, m: P.Message)
    requires var c := |s.calls|;
             && u.rows == s.rows && u.calls == s.calls + [Attempt(m.exec, m.id, Some([]), [], 0, false)]
             && u.broker.ledger == s.broker.ledger && u.broker.runQ == s.broker.runQ
             && v.calls == u.calls[c := Advanced(u.calls[c])] && v.broker == u.broker && OnlyRow(u, v, u.calls[c].exec)
             && t.broker == v.broker && OnlyRow(v, t, v.calls[c].exec) && c < |t.calls| && Complete(t.calls[c])
             && WellFormed(v.calls[c].parsed, v.calls[c].obs)
             && t.calls == v.calls[c := v.calls[c].(pc := |ScriptOf(v.calls[c])|)]
    ensures RanOnce(s, t, m)
  {
  }

  // And the message is settled.
  lemma Serve(s: State, w: nat, m: P.Message) returns (t: State, trace: seq<Step>)
    requires Inv(s, Nobody) && Holds(s, w, m) && m.nacks < Topology.MAX_RETRIES
    ensures Leads(s, trace, t) && Inv(t, Nobody) && Free(t, w) && OnlyRow(s, t, m.exec)
    ensures t.broker.ledger == s.broker.ledger && t.broker.runQ == s.broker.runQ
    ensures |t.calls| == |s.calls| + 1 && s.calls <= t.calls && t.calls[|s.calls|].msg == m.id
  {
    var u, first := RunEmpty(s, w, m);
    var second;
    t, second := Conclude(u, w, |s.calls|);
    Join(s, first, u, second, t);
    trace := first + second;
  }

  lemma OtherExec(s: State, w: nat, m: P.Message, id: nat)
    requires Inv(s, Nobody) && Holds(s, w, m) && m.id != id && id < |s.broker.ledger|
    ensures m.exec != s.broker.ledger[id].exec
  {
    ListedAt(s.broker, w);
  }

  // The first message of the run queue is handled, and nothing changes for another one.
  lemma HandleFirst(s: State, w: nat, id: nat) returns (t: State, trace: seq<Step>)
    requires Inv(s, Nobody) && Free(s, w) && s.broker.runQ != [] && s.broker.runQ[0].id != id && id < |s.broker.ledger|
    ensures Leads(s, trace, t) && Inv(t, Nobody) && Free(t, w) && Beside(s, t, id)
    ensures t.broker.runQ == s.broker.runQ[1..]
  {
    var m := s.broker.runQ[0];
    var u, first := Receive(s, w);
    ReachesInv(s, first, u);
    var second;
    if m.nacks >= Topology.MAX_RETRIES {
      t, second := Drop(u, w, m);
      ReachesInv(u, second, t);
    } else {
      OtherExec(u, w, m, id);
      t, second := Serve(u, w, m);
      ExtendedBy(s.calls, t.calls, id);
    }
    Join(s, first, u, second, t);
    trace := first + second;
  }

  lemma Apart(b: P.State, i: nat, j: nat)
    requires P.Inv(b) && i < j < |b.runQ|
    ensures b.runQ[i].id != b.runQ[j].id
  {
    if b.runQ[i].id == b.runQ[j].id { PF.AtMostOnePlace(b, PF.InRun(i), PF.InRun(j), b.runQ[i].id); }
  }

  lemma BesideOn(s: State, t: State, u: State, id: nat)
    requires Beside(s, t, id) && Beside(t, u, id)
    ensures Beside(s, u, id)
  {
  }

  lemma Combine(s: State, first: seq<Step>, t: State, second: seq<Step>, u: State, id: nat)
    requires Leads(s, first, t) && Leads(t, second, u) && Beside(s, t, id) && Beside(t, u, id)
    ensures Leads(s, first + second, u) && Beside(s, u, id)
  {
    Join(s, first, t, second, u);
    BesideOn(s, t, u, id);
  }

  lemma Stay(s: State, id: nat)
    ensures Leads(s, [], s) && Beside(s, s, id)
  {
  }

  ghost predicate AtPlace(s: State, w: nat, i: nat, m: P.Message) {
    Inv(s, Nobody) && Free(s, w) && i < |s.broker.runQ| && s.broker.runQ[i] == m && m.id < |s.broker.ledger|
  }

  lemma MoveUp(s: State, w: nat, i: nat, m: P.Message) returns (t: State, trace: seq<Step>)
    requires AtPlace(s, w, i, m) && i > 0
    ensures Leads(s, trace, t) && Beside(s, t, m.id) && AtPlace(t, w, i - 1, m)
  {
    Apart(s.broker, 0, i);
    t, trace := HandleFirst(s, w, m.id);
  }

  ghost predicate AtFront(s: State, trace: seq<Step>, t: State, w: nat, m: P.Message) {
    && Leads(s, trace, t) && Inv(t, Nobody) && Free(t, w) && Beside(s, t, m.id)
    && t.broker.runQ != [] && t.broker.runQ[0] == m
  }

  lemma AtFrontAfter(s: State, first: seq<Step>, u: State, rest: seq<Step>, t: State, w: nat, m: P.Message)
    returns (trace: seq<Step>)
    requires Leads(s, first, u) && Beside(s, u, m.id) && AtFront(u, rest, t, w, m)
    ensures AtFront(s, trace, t, w, m)
  {
    Combine(s, first, u, rest, t, m.id);
    trace := first + rest;
  }

  lemma AlreadyFront(s: State, w: nat, i: nat, m: P.Message)
    requires AtPlace(s, w, i, m) && i == 0
    ensures AtFront(s, [], s, w, m)
  {
    Stay(s, m.id);
  }

  lemma {:induction false} ToFront(s: State, w: nat, i: nat, m: P.Message) returns (t: State, trace: seq<Step>)
    requires AtPlace(s, w, i, m)
    ensures AtFront(s, trace, t, w, m)
    decreases i
  {
    if i == 0 {
      t, trace := s, [];
      AlreadyFront(s, w, i, m);
    } else {
      var u, first := MoveUp(s, w, i, m);
      var rest: seq<Step>;
      t, rest := ToFront(u, w, i - 1, m);
      trace := AtFrontAfter(s, first, u, rest, t, w, m);
    }
  }

  predicate AllDue(b: P.State) {
    forall i :: 0 <= i < |b.retryQ| ==> b.retryQ[i].at + Topology.TTL <= b.now
  }

  lemma WakeFirst(s: State, w: nat) returns (t: State, trace: seq<Step>)
    requires Kept(s, s) && Free(s, w) && s.broker.retryQ != [] && AllDue(s.broker)
    ensures Leads(s, trace, t) && Kept(s, t) && Free(t, w) && AllDue(t.broker)
    ensures t.broker.retryQ == s.broker.retryQ[1..] && t.broker.done == s.broker.done
    ensures t.broker.runQ == s.broker.runQ + [P.Returned(s.broker.retryQ[0].msg)]
  {
    P.Timing(s.broker);
    var x := Pass(P.Wake);
    t, trace := Apply(s, x), [x];
    P.WokenIs(s.broker);
    OneStep(s, x);
  }

  lemma {:induction false} WakeUp(s: State, w: nat, j: nat) returns (t: State, trace: seq<Step>)
    requires Kept(s, s) && Free(s, w) && j < |s.broker.retryQ| && AllDue(s.broker)
    ensures Leads(s, trace, t) && Kept(s, t) && Free(t, w) && t.broker.done == s.broker.done
    ensures t.broker.runQ != [] && t.broker.runQ[|t.broker.runQ| - 1] == P.Returned(s.broker.retryQ[j].msg)
    decreases j
  {
    t, trace := WakeFirst(s, w);
    if j > 0 {
      var u, first := t, trace;
      var rest: seq<Step>;
      t, rest := WakeUp(u, w, j - 1);
      Join(s, first, u, rest, t);
      trace := first + rest;
    }
  }

  lemma WaitOut(s: State, w: nat) returns (t: State, trace: seq<Step>)
    requires Kept(s, s) && P.Inv(s.broker) && Free(s, w)
    ensures Leads(s, trace, t) && Kept(s, t) && Free(t, w) && t.broker.retryQ == s.broker.retryQ && AllDue(t.broker)
    ensures t.broker.done == s.broker.done
  {
    var x := Pass(P.Tick(Topology.TTL));
    t, trace := Apply(s, x), [x];
    OneStep(s, x);
    forall i | 0 <= i < |t.broker.retryQ| ensures t.broker.retryQ[i].at + Topology.TTL <= t.broker.now {
      assert P.ParkedOk(s.broker.retryQ[i], s.broker.now);
    }
  }

  // A message comes to the front of the queue and to a worker.
  lemma Fetch(s: State, w: nat, i: nat) returns (t: State, trace: seq<Step>)
    requires Inv(s, Nobody) && Free(s, w) && i < |s.broker.runQ|
    ensures Leads(s, trace, t) && Inv(t, Nobody) && Beside(s, t, s.broker.runQ[i].id) && Holds(t, w, s.broker.runQ[i])
  {
    PresentListed(s.broker, PF.InRun(i));
    var u, first := ToFront(s, w, i, s.broker.runQ[i]);
    var second;
    t, second := Receive(u, w);
    Join(s, first, u, second, t);
    trace := first + second;
    ReachesInv(s, trace, t);
    BesideOn(s, u, t, s.broker.runQ[i].id);
  }

  // A message with a delivery left goes to the engine as a new call, from anywhere in the queue.
  lemma Dispatch(s: State, w: nat, i: nat, parsed: Option<seq<StepDef>>, obs: seq<Obs>)
    returns (t: State, trace: seq<Step>, d: nat)
    requires Inv(s, Nobody) && Free(s, w) && WellFormed(parsed, obs)
    requires i < |s.broker.runQ| && s.broker.runQ[i].nacks < Topology.MAX_RETRIES
    ensures Leads(s, trace, t) && Inv(t, Nobody) && |s.calls| <= d && |t.calls| == d + 1 && s.calls <= t.calls
    ensures t.calls[d] == Attempt(s.broker.runQ[i].exec, s.broker.runQ[i].id, parsed, obs, 0, false)
    ensures CallsFor(t.calls, s.broker.runQ[i].id) == CallsFor(s.calls, s.broker.runQ[i].id) + 1
    ensures t.broker.ledger == s.broker.ledger && t.rows.Keys == s.rows.Keys
    ensures forall e :: e in s.rows ==> t.rows[e].wf == s.rows[e].wf
  {
    var u, first := Fetch(s, w, i);
    var second;
    t, second := Call(u, w, s.broker.runQ[i], parsed, obs);
    d := |u.calls|;
    ExtendedBy(u.calls, t.calls, s.broker.runQ[i].id);
    Join(s, first, u, second, t);
    trace := first + second;
  }

  // ----- after giving up -----

  // Worker w waits for the reply to an engine call, refused or not.
  predicate InCall(s: State, w: nat) {
    w < |s.broker.workers| && s.broker.workers[w].Calling?
  }

  // The message is back in the run queue.
  predicate Queued(t: State, w: nat, i: nat, m: P.Message) {
    Free(t, w) && i < |t.broker.runQ| && t.broker.runQ[i].id == m.id && t.broker.runQ[i].exec == m.exec
  }

  predicate LeftAt(t: State, i: nat) {
    i < |t.broker.runQ| && t.broker.runQ[i].nacks < Topology.MAX_RETRIES
  }

  lemma AfterLoss(s: State, w: nat, pos: nat) returns (t: State, trace: seq<Step>)
    requires Kept(s, s) && Enabled(s, Pass(P.Lose(w, pos))) && InCall(s, w)
    ensures Leads(Apply(s, Pass(P.Lose(w, pos))), trace, t) && Kept(s, t)
    ensures Queued(t, w, pos, s.broker.workers[w].msg) && t.broker.runQ[pos].nacks == s.broker.workers[w].msg.nacks
  {
    var u := Apply(s, Pass(P.Lose(w, pos)));
    var x := Pass(P.Restart(w));
    t, trace := Apply(u, x), [x];
    OneStep(u, x);
  }

  lemma ErrorParks(s: State, w: nat)
    requires Kept(s, s) && Enabled(s, Answer(w, false))
    ensures var u := Apply(s, Answer(w, false));
            && Kept(s, u) && Free(u, w)
            && u.broker.retryQ == s.broker.retryQ + [P.Parked(P.Rejected(s.broker.workers[w].msg), s.broker.now)]
  {
    P.NackIs(s.broker, w);
  }

  // The last message of the retry queue comes back to the end of the run queue.
  lemma Returns(s: State, w: nat) returns (t: State, trace: seq<Step>)
    requires Kept(s, s) && P.Inv(s.broker) && Free(s, w) && s.broker.retryQ != []
    ensures Leads(s, trace, t) && Kept(s, t) && Free(t, w) && t.broker.done == s.broker.done && t.broker.runQ != []
    ensures t.broker.runQ[|t.broker.runQ| - 1] == P.Returned(s.broker.retryQ[|s.broker.retryQ| - 1].msg)
  {
    var v, first := WaitOut(s, w);
    var rest: seq<Step>;
    t, rest := WakeUp(v, w, |s.broker.retryQ| - 1);
    Join(s, first, v, rest, t);
    trace := first + rest;
  }

  lemma FromRetry(s: State, u: State, w: nat, m: P.Message) returns (t: State, trace: seq<Step>, i: nat)
    requires P.Inv(u.broker) && Kept(s, u) && Free(u, w)
    requires u.broker.retryQ == s.broker.retryQ + [P.Parked(P.Rejected(m), s.broker.now)]
    ensures Leads(u, trace, t) && Kept(s, t) && Queued(t, w, i, m) && t.broker.runQ[i].nacks == m.nacks + 1
    ensures t.broker.done == u.broker.done
  {
    t, trace := Returns(u, w);
    i := |t.broker.runQ| - 1;
  }

  lemma BackAfterLoss(s: State, w: nat, pos: nat) returns (t: State, trace: seq<Step>)
    requires P.Inv(s.broker) && Enabled(s, Pass(P.Lose(w, pos))) && InCall(s, w)
    ensures Leads(Apply(s, Pass(P.Lose(w, pos))), trace, t) && Kept(s, t)
    ensures Queued(t, w, pos, s.broker.workers[w].msg) && LeftAt(t, pos)
  {
    assert P.SlotOk(s.broker.workers[w], s.broker.now);
    t, trace := AfterLoss(s, w, pos);
  }

  lemma BackAfterError(s: State, w: nat) returns (t: State, trace: seq<Step>, i: nat)
    requires Kept(s, s) && Enabled(s, Answer(w, false)) && P.Inv(Apply(s, Answer(w, false)).broker)
    ensures Leads(Apply(s, Answer(w, false)), trace, t) && Kept(s, t) && Queued(t, w, i, s.broker.workers[w].msg)
    ensures s.broker.workers[w].msg.nacks + 1 < Topology.MAX_RETRIES ==> LeftAt(t, i)
  {
    ErrorParks(s, w);
    t, trace, i := FromRetry(s, Apply(s, Answer(w, false)), w, s.broker.workers[w].msg);
  }

  lemma ComesBack(s: State, step: Step, w: nat) returns (t: State, trace: seq<Step>, i: nat)
    requires Inv(s, Nobody) && Enabled(s, step) && GaveUp(step) == Some(w) && InCall(s, w)
    ensures Leads(Apply(s, step), trace, t) && Kept(s, t) && Inv(t, Nobody) && Queued(t, w, i, s.broker.workers[w].msg)
    ensures Again(step, s.broker.workers[w].msg) ==> LeftAt(t, i)
  {
    StepKeepsInv(s, step, Nobody);
    if step.Pass? {
      i := step.step.pos;
      t, trace := BackAfterLoss(s, w, i);
    } else {
      t, trace, i := BackAfterError(s, w);
    }
    ReachesInv(Apply(s, step), trace, t);
  }

  // ----- running twice -----

  ghost predicate CalledAgain(s: State, id: nat, trace: seq<Step>) {
    Legal(s, trace) && CallsFor(After(s, trace).calls, id) > CallsFor(s.calls, id)
  }

  // First the execution gets its verdict, and then the verdict is overwritten.
  ghost predicate Overwritten(s: State, e: nat, first: seq<Step>, second: seq<Step>) {
    && Legal(s, first) && Terminal(StatusOf(After(s, first), e))
    && Legal(After(s, first), second) && StatusOf(After(After(s, first), second), e) == "running"
  }

  // Two complete calls for execution e have both stored all their rows.
  ghost predicate RanTwice(s: State, e: nat, c: nat, d: nat) {
    && c < |s.calls| && d < |s.calls| && c != d && s.calls[c].exec == e && s.calls[d].exec == e
    && Complete(s.calls[c]) && LogsOfCall(s.logs, c) == LogsOf(ScriptOf(s.calls[c]))
    && Complete(s.calls[d]) && LogsOfCall(s.logs, d) == LogsOf(ScriptOf(s.calls[d]))
  }

  // The call given up is still underway, and can be carried to its end.
  lemma StillUnderway(s: State, t: State, w: nat)
    requires Waiting(s, w) && Inv(s, Only(s.broker.workers[w].msg.id, false)) && Kept(s, t) && Inv(t, Nobody)
    ensures var c := s.broker.workers[w].call;
            && c < |s.calls| && Underway(t, c) && s.calls[c].exec == s.broker.workers[w].msg.exec
            && s.calls[c].msg == s.broker.workers[w].msg.id
  {
    var c := s.broker.workers[w].call;
    var id := s.broker.workers[w].msg.id;
    assert SlotTally(s.calls, Only(id, false), s.broker.workers[w]);
    assert CallOk(s.calls[c], s.broker.ledger) && LiveFor(s.calls[c], id);
    ListedAt(s.broker, w);
  }

  // The new call has the steps and the outside behaviour of the old one.
  predicate SameRun(a: Attempt, b: Attempt) {
    b.exec == a.exec && b.parsed == a.parsed && b.obs == a.obs
  }

  // The old call runs to its verdict, the message is dispatched again, and the new call begins.
  lemma Overwrites(t: State, w: nat, i: nat, m: P.Message, c: nat)
    returns (first: seq<Step>, second: seq<Step>, v: State, d: nat)
    requires Inv(t, Nobody) && Queued(t, w, i, m) && LeftAt(t, i)
    requires Underway(t, c) && t.calls[c].exec == m.exec && t.calls[c].msg == m.id
    ensures Overwritten(t, m.exec, first, second) && v == After(After(t, first), second) && Leads(t, first + second, v)
    ensures c < d && Underway(v, d) && Complete(v.calls[c]) && SameRun(t.calls[c], v.calls[c])
    ensures SameRun(t.calls[c], v.calls[d]) && CallsFor(v.calls, m.id) == CallsFor(t.calls, m.id) + 1
    ensures v.broker.ledger == t.broker.ledger && OnlyWf(t, v)
  {
    var a := t.calls[c];
    var t1: State;
    t1, first := Finish(t, c);
    FinishedVerdict(t1, c);
    var t2, go;
    t2, go, d := Dispatch(t1, w, i, a.parsed, a.obs);
    var go2;
    v, go2 := Restart(t2, d);
    Join(t1, go, t2, go2, v);
    second := go + go2;
    Join(t, first, t1, second, v);
    CountSwap(t.calls, c, t1.calls[c], m.id);
    CountSwap(t2.calls, d, v.calls[d], m.id);
  }

  // The same executions, of the same workflows.
  predicate OnlyWf(s: State, t: State) {
    t.rows.Keys == s.rows.Keys && forall e :: e in s.rows ==> t.rows[e].wf == s.rows[e].wf
  }

  lemma CompleteLogs(s: State, c: nat)
    requires Inv(s, Nobody) && c < |s.calls| && Complete(s.calls[c])
    ensures LogsOfCall(s.logs, c) == LogsOf(ScriptOf(s.calls[c]))
  {
    assert CallLogs(s.logs, s.calls[c], c);
    assert ScriptOf(s.calls[c])[..s.calls[c].pc] == ScriptOf(s.calls[c]);
  }

  lemma SameCalls(s: State, step: Step, w: nat)
    requires Enabled(s, step) && GaveUp(step) == Some(w)
    ensures Apply(s, step).calls == s.calls && Apply(s, step).rows == s.rows
  {
  }

  lemma Prefixed(u: State, back: seq<Step>, t: State, start: seq<Step>, second: seq<Step>, x: State, e: nat)
    requires Reaches(u, back, t) && Overwritten(t, e, start, second) && x == After(After(t, start), second)
    ensures Overwritten(u, e, back + start, second) && x == After(After(u, back + start), second)
  {
    Then(u, back, start);
  }

  lemma GivenThree(a: seq<Step>, b: seq<Step>, c: seq<Step>)
    ensures Given(a + b + c) == Given(a) + Given(b + c)
  {
    Assoc(a, b, c);
    GivenAppend(a, b + c);
  }

  lemma OverwritingReaches(s: State, e: nat, first: seq<Step>, second: seq<Step>)
    requires Overwritten(s, e, first, second)
    ensures Reaches(s, first + second, After(After(s, first), second))
  {
    Then(s, first, second);
  }

  lemma FinishBoth(x: State, c: nat, d: nat, e: nat) returns (v: State, third: seq<Step>)
    requires Underway(x, d) && c < |x.calls| && c != d && Complete(x.calls[c])
    requires x.calls[c].exec == x.calls[d].exec == e
    ensures Leads(x, third, v) && RanTwice(v, e, c, d)
  {
    v, third := Finish(x, d);
    CompleteLogs(v, c);
    CompleteLogs(v, d);
  }

  // From any such give-up on, with no further trigger or fault: the stored verdict can be overwritten, by a second
  // run of the same steps, and both calls can leave their complete set of rows.
  lemma RunsAgain(s: State, step: Step, w: nat)
    returns (first: seq<Step>, second: seq<Step>, x: State, third: seq<Step>, v: State, d: nat)
    requires Waiting(s, w) && Enabled(s, step) && GaveUp(step) == Some(w) && Again(step, s.broker.workers[w].msg)
    requires Inv(s, Only(s.broker.workers[w].msg.id, false))
    ensures var u, m, c := Apply(s, step), s.broker.workers[w].msg, s.broker.workers[w].call;
            && Overwritten(u, m.exec, first, second) && x == After(After(u, first), second)
            && Leads(u, first + second, x) && CallsFor(x.calls, m.id) == CallsFor(u.calls, m.id) + 1
            && c < d < |x.calls| && SameRun(s.calls[c], x.calls[c]) && SameRun(s.calls[c], x.calls[d])
            && x.broker.ledger == s.broker.ledger && OnlyWf(s, x)
            && Leads(x, third, v) && RanTwice(v, m.exec, c, d)
  {
    var u, m, c := Apply(s, step), s.broker.workers[w].msg, s.broker.workers[w].call;
    Unwatched(s, Only(m.id, false));
    SameCalls(s, step, w);
    var t, back, i := ComesBack(s, step, w);
    StillUnderway(s, t, w);
    var start;
    start, second, x, d := Overwrites(t, w, i, m, c);
    first := back + start;
    Prefixed(u, back, t, start, second, x, m.exec);
    GivenThree(back, start, second);
    OverwritingReaches(u, m.exec, first, second);
    v, third := FinishBoth(x, c, d, m.exec);
  }

  ghost predicate CanBeCalledAgain(s: State, id: nat) {
    exists trace :: CalledAgain(s, id, trace)
  }

  ghost predicate CanBeOverwritten(s: State, e: nat) {
    exists first, second :: Overwritten(s, e, first, second)
  }

  lemma CalledSomehow(s: State, step: Step, w: nat)
    requires Inv(s, Nobody) && InCall(s, w) && Enabled(s, step) && GaveUp(step) == Some(w)
    requires Again(step, s.broker.workers[w].msg)
    ensures CanBeCalledAgain(Apply(s, step), s.broker.workers[w].msg.id)
  {
    SameCalls(s, step, w);
    var t, back, i := ComesBack(s, step, w);
    var u, go, d := Dispatch(t, w, i, None, []);
    Join(Apply(s, step), back, t, go, u);
    assert CalledAgain(Apply(s, step), s.broker.workers[w].msg.id, back + go);
  }

  // In every reachable state, whatever has happened before: if a worker gives up on an engine call, by an error reply
  // or a lost connection, some continuation calls the engine again for that message if and only if it has a delivery
  // left: always after a connection loss, and after an error reply unless that was its last rejection.
  lemma CalledAgainExactly(s: State, step: Step, w: nat)
    requires Inv(s, Nobody) && InCall(s, w) && Enabled(s, step) && GaveUp(step) == Some(w)
    ensures CanBeCalledAgain(Apply(s, step), s.broker.workers[w].msg.id) <==> Again(step, s.broker.workers[w].msg)
  {
    if Again(step, s.broker.workers[w].msg) {
      CalledSomehow(s, step, w);
    } else {
      NeverCalled(s, step, w);
    }
  }

  // The exact condition. Let a worker give up on a live engine call of a message towards which all was honest so far.
  // Some continuation overwrites its execution's verdict if and only if the message has a delivery left.
  lemma GiveUpExactly(s: State, step: Step, w: nat)
    requires Waiting(s, w) && Enabled(s, step) && GaveUp(step) == Some(w)
    requires Inv(s, Only(s.broker.workers[w].msg.id, false))
    ensures CanBeCalledAgain(Apply(s, step), s.broker.workers[w].msg.id) <==> Again(step, s.broker.workers[w].msg)
    ensures CanBeOverwritten(Apply(s, step), s.broker.workers[w].msg.exec) <==> Again(step, s.broker.workers[w].msg)
  {
    Unwatched(s, Only(s.broker.workers[w].msg.id, false));
    CalledAgainExactly(s, step, w);
    if Again(step, s.broker.workers[w].msg) {
      var first, second, x, third, v, d := RunsAgain(s, step, w);
    } else {
      NeverOverwritten(s, step, w);
    }
  }

  lemma LastRejection(s: State, w: nat)
    requires P.Inv(s.broker) && Enabled(s, Answer(w, false))
    requires s.broker.workers[w].msg.nacks + 1 >= Topology.MAX_RETRIES
    ensures Spent(Apply(s, Answer(w, false)).broker, s.broker.workers[w].msg.id)
  {
    Elsewhere(s.broker, w);
    P.NackIs(s.broker, w);
  }

  lemma NeverCalled(s: State, step: Step, w: nat)
    requires Inv(s, Nobody) && InCall(s, w) && Enabled(s, step) && GaveUp(step) == Some(w)
    requires !Again(step, s.broker.workers[w].msg)
    ensures !CanBeCalledAgain(Apply(s, step), s.broker.workers[w].msg.id)
  {
    var u, id := Apply(s, step), s.broker.workers[w].msg.id;
    ListedAt(s.broker, w);
    LastRejection(s, w);
    StepKeepsInv(s, step, Nobody);
    LedgerExtends(s, step);
    forall trace ensures !CalledAgain(u, id, trace) {
      if Legal(u, trace) { SpentForGood(u, trace, id); }
    }
  }

  lemma NeverOverwritten(s: State, step: Step, w: nat)
    requires Waiting(s, w) && Enabled(s, step) && GaveUp(step) == Some(w) && !Again(step, s.broker.workers[w].msg)
    requires Inv(s, Only(s.broker.workers[w].msg.id, false))
    ensures !CanBeOverwritten(Apply(s, step), s.broker.workers[w].msg.exec)
  {
    var u, m := Apply(s, step), s.broker.workers[w].msg;
    ListedAt(s.broker, w);
    LastRejection(s, w);
    StepKeepsInv(s, step, Only(m.id, false));
    LedgerExtends(s, step);
    forall first, second ensures !Overwritten(u, m.exec, first, second) {
      if Legal(u, first) && Legal(After(u, first), second) { VerdictKept(u, first, second, m.id); }
    }
  }

  lemma VerdictKept(u: State, first: seq<Step>, second: seq<Step>, id: nat)
    requires Inv(u, Only(id, false)) && Spent(u.broker, id) && id < |u.broker.ledger|
    requires Legal(u, first) && Legal(After(u, first), second)
    ensures !Overwritten(u, u.broker.ledger[id].exec, first, second)
  {
    var t, watch := After(u, first), Only(id, false);
    Unwatched(u, watch);
    SpentForGood(u, first, id);
    ReachableInv(u, first, watch);
    Unwatched(t, watch);
    SpentForGood(t, second, id);
    VerdictStays(t, second, watch);
  }

  // ----- what honesty is for -----

  // Some continuation overwrites a verdict of execution e without a worker giving up on any call.
  ghost predicate PatientlyOverwritten(s: State, e: nat) {
    exists first, second :: Overwritten(s, e, first, second) && Patient(first + second)
  }

  // Some continuation does so without any trigger or fault at all.
  ghost predicate QuietlyOverwritten(s: State, e: nat) {
    exists first, second :: Overwritten(s, e, first, second) && Given(first + second) == []
  }

  lemma PatientParts(a: seq<Step>, b: seq<Step>)
    requires Patient(a + b)
    ensures Patient(a) && Patient(b)
  {
    assert forall k :: 0 <= k < |a| ==> (a + b)[k] == a[k];
    assert forall k :: 0 <= k < |b| ==> (a + b)[|a| + k] == b[k];
  }

  lemma PatienceKeepsVerdict(s: State, id: nat, first: seq<Step>, second: seq<Step>)
    requires Inv(s, Only(id, false)) && id < |s.broker.ledger|
    requires Legal(s, first) && Legal(After(s, first), second) && Patient(first + second)
    ensures !Overwritten(s, s.broker.ledger[id].exec, first, second)
  {
    var watch := Only(id, false);
    PatientParts(first, second);
    PatientIsHonest(s, first, watch);
    PatientIsHonest(After(s, first), second, watch);
    ReachableInv(s, first, watch);
    Unwatched(s, watch);
    LedgerGrows(s, first);
    VerdictStays(After(s, first), second, watch);
  }

  lemma {:induction false} LedgerGrows(s: State, trace: seq<Step>)
    requires Inv(s, Nobody) && Legal(s, trace)
    ensures s.broker.ledger <= After(s, trace).broker.ledger
    decreases |trace|
  {
    if trace != [] {
      LedgerExtends(s, trace[0]);
      StepKeepsInv(s, trace[0], Nobody);
      LedgerGrows(Apply(s, trace[0]), trace[1..]);
    }
  }

  lemma HonestKeepsVerdict(s: State, step: Step, id: nat)
    requires Inv(s, Only(id, false)) && id < |s.broker.ledger| && Enabled(s, step) && Honest(s, step, Only(id, false))
    ensures !PatientlyOverwritten(Apply(s, step), s.broker.ledger[id].exec)
  {
    var u, e := Apply(s, step), s.broker.ledger[id].exec;
    StepKeepsInv(s, step, Only(id, false));
    LedgerExtends(s, step);
    forall first, second | Overwritten(u, e, first, second) && Patient(first + second) ensures false {
      PatienceKeepsVerdict(u, id, first, second);
    }
  }

  lemma DishonestLosesVerdict(s: State, step: Step, id: nat)
    requires Inv(s, Only(id, false)) && id < |s.broker.ledger| && Enabled(s, step) && !Honest(s, step, Only(id, false))
    ensures QuietlyOverwritten(Apply(s, step), s.broker.ledger[id].exec)
  {
    var w := GaveUp(step).value;
    ListedAt(s.broker, w);
    var first, second, x, third, v, d := RunsAgain(s, step, w);
  }

  // Step by step: as long as an execution is sure to keep any verdict unless a worker gives up on a call, a step keeps
  // it so if and only if it is honest towards the execution's message; and after a step that is not, the pipeline can
  // overwrite the verdict all by itself.
  lemma HonestExactly(s: State, step: Step, id: nat)
    requires Inv(s, Only(id, false)) && id < |s.broker.ledger| && Enabled(s, step)
    ensures Honest(s, step, Only(id, false)) <==> !PatientlyOverwritten(Apply(s, step), s.broker.ledger[id].exec)
    ensures Honest(s, step, Only(id, false)) <==> !QuietlyOverwritten(Apply(s, step), s.broker.ledger[id].exec)
  {
    var u, e := Apply(s, step), s.broker.ledger[id].exec;
    forall first, second | Overwritten(u, e, first, second) && Given(first + second) == []
      ensures Patient(first + second) {
      PatientIfGiven(first + second);
    }
    if Honest(s, step, Only(id, false)) {
      HonestKeepsVerdict(s, step, id);
    } else {
      DishonestLosesVerdict(s, step, id);
    }
  }

  // In terms of runs: what giving up on a call leads to in whatever state a run arrives.
  lemma GiveUpInRun(n: nat, trace: seq<Step>, step: Step, w: nat)
    requires Legal(Init(n), trace) && Enabled(After(Init(n), trace), step)
    requires GaveUp(step) == Some(w) && InCall(After(Init(n), trace), w)
    ensures var s := After(Init(n), trace);
            CanBeCalledAgain(Apply(s, step), s.broker.workers[w].msg.id) <==> Again(step, s.broker.workers[w].msg)
  {
    Reached(n, trace, Nobody);
    CalledAgainExactly(After(Init(n), trace), step, w);
  }

  // And what it leads to if the call is live and the run was honest towards its message.
  lemma OverwrittenInRun(n: nat, trace: seq<Step>, step: Step, w: nat)
    requires Legal(Init(n), trace) && Enabled(After(Init(n), trace), step)
    requires GaveUp(step) == Some(w) && Waiting(After(Init(n), trace), w)
    requires AllHonest(Init(n), trace, Only(After(Init(n), trace).broker.workers[w].msg.id, false))
    ensures var s := After(Init(n), trace);
            CanBeOverwritten(Apply(s, step), s.broker.workers[w].msg.exec) <==> Again(step, s.broker.workers[w].msg)
  {
    var s := After(Init(n), trace);
    Reached(n, trace, Only(s.broker.workers[w].msg.id, false));
    GiveUpExactly(s, step, w);
  }
}
