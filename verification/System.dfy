/** The whole pipeline: the retry protocol, the execution rows, and the engine calls it starts, each
    carrying out its run's effects one at a time and interleaved with everything else. */
module System {
  import opened Json
  import opened Sequences
  import opened Events
  import opened Engine
  import F = EngineFacts
  import P = Protocol
  import PF = ProtocolFacts
  import Topology

  datatype Row = Row(wf: nat, status: string)

  // One call of RunExecution: refused when a load fails, else it performs its script up to pc.
  datatype Attempt = Attempt(exec: nat, msg: nat, parsed: Option<seq<StepDef>>, obs: seq<Obs>, pc: nat, refused: bool)

  datatype Tagged = Tagged(call: nat, log: StepLog)

  // An event on the channel of workflow wf.
  datatype Posted = Posted(call: nat, wf: nat, event: Event)

  datatype State = State(broker: P.State, rows: map<nat, Row>, nextExec: nat, calls: seq<Attempt>, logs: seq<Tagged>,
                         feed: seq<Posted>)

  predicate WellFormed(parsed: Option<seq<StepDef>>, obs: seq<Obs>) {
    parsed.Some? ==> |parsed.value| <= |obs|
  }

  function ScriptOf(a: Attempt): seq<Effect>
    requires WellFormed(a.parsed, a.obs)
  {
    Script(a.exec, a.parsed, a.obs)
  }

  // Trigger: a webhook or the scheduler stores a pending row and publishes (sent = false: the publish
  // failed). Take: a worker decides about its delivery. Perform: a call's next effect. Refuse: its loads
  // fail. Answer: the RPC returns to the worker. Pass: any other step of the broker.
  datatype Step =
    | Trigger(wf: nat, sent: bool)
    | Take(w: nat, dbError: bool, parsed: Option<seq<StepDef>>, obs: seq<Obs>)
    | Perform(call: nat)
    | Refuse(call: nat)
    | Answer(w: nat, ok: bool)
    | Pass(step: P.Step)

  function Lookup(s: State, exec: nat, dbError: bool): P.Lookup {
    if dbError then P.DbError else if exec in s.rows then P.Found else P.NotFound
  }

  function TakeStep(s: State, w: nat, dbError: bool): P.Step
    requires w < |s.broker.workers| && s.broker.workers[w].Got?
  {
    P.Handle(w, Lookup(s, s.broker.workers[w].msg.exec, dbError), |s.calls|)
  }

  predicate Open(a: Attempt) {
    !a.refused && WellFormed(a.parsed, a.obs)
  }

  // A reply "ok" needs a finished run. An error reply may come at any time: the engine may have refused, or
  // may still be running, or may even be done.
  predicate Enabled(s: State, step: Step) {
    match step
    case Trigger(_, _) => true
    case Take(w, _, parsed, obs) => w < |s.broker.workers| && s.broker.workers[w].Got? && WellFormed(parsed, obs)
    case Perform(c) => c < |s.calls| && Open(s.calls[c]) && s.calls[c].pc < |ScriptOf(s.calls[c])|
    case Refuse(c) => c < |s.calls| && !s.calls[c].refused && s.calls[c].pc == 0
    case Answer(w, ok) =>
      && P.Enabled(s.broker, P.Reply(w, ok))
      && var c := s.broker.workers[w].call;
      (ok ==> c < |s.calls| && Open(s.calls[c]) && s.calls[c].pc == |ScriptOf(s.calls[c])|)
    case Pass(b) => !b.Publish? && !b.Handle? && !b.Reply? && P.Enabled(s.broker, b)
  }

  function Store(s: State, c: nat, x: Effect): State
    requires c < |s.calls|
  {
    var e := s.calls[c].exec;
    match x
    case SetStatus(st) => if e in s.rows then s.(rows := s.rows[e := s.rows[e].(status := st)]) else s
    case WriteLog(log) => s.(logs := s.logs + [Tagged(c, log)])
    case Publish(ev) => if e in s.rows then s.(feed := s.feed + [Posted(c, s.rows[e].wf, ev)]) else s
  }

  function Apply(s: State, step: Step): State
    requires Enabled(s, step)
  {
    match step
    case Trigger(wf, sent) =>
      var t := s.(rows := s.rows[s.nextExec := Row(wf, "pending")], nextExec := s.nextExec + 1);
      if sent then t.(broker := P.Apply(s.broker, P.Publish(s.nextExec, wf))) else t
    case Take(w, dbError, parsed, obs) =>
      var m := s.broker.workers[w].msg;
      var b := TakeStep(s, w, dbError);
      var t := s.(broker := P.Apply(s.broker, b));
      if P.Decide(m.deaths, b.row) == P.Call then t.(calls := s.calls + [Attempt(m.exec, m.id, parsed, obs, 0, false)])
      else t
    case Perform(c) =>
      var a := s.calls[c];
      Store(s, c, ScriptOf(a)[a.pc]).(calls := s.calls[c := Advanced(a)])
    case Refuse(c) => s.(calls := s.calls[c := s.calls[c].(refused := true)])
    case Answer(w, ok) => s.(broker := P.Apply(s.broker, P.Reply(w, ok)))
    case Pass(b) => s.(broker := P.Apply(s.broker, b))
  }

  function Init(workers: nat): State {
    State(P.Init(workers), map[], 1, [], [], [])
  }

  ghost predicate Legal(s: State, trace: seq<Step>)
    decreases |trace|
  {
    trace == [] || (Enabled(s, trace[0]) && Legal(Apply(s, trace[0]), trace[1..]))
  }

  ghost function After(s: State, trace: seq<Step>): State
    requires Legal(s, trace)
    decreases |trace|
  {
    if trace == [] then s else After(Apply(s, trace[0]), trace[1..])
  }

  lemma {:induction false} Then(s: State, a: seq<Step>, b: seq<Step>)
    requires Legal(s, a) && Legal(After(s, a), b)
    ensures Legal(s, a + b) && After(s, a + b) == After(After(s, a), b)
    decreases |a|
  {
    if a == [] { assert a + b == b; }
    else {
      assert (a + b)[1..] == a[1..] + b;
      Then(Apply(s, a[0]), a[1..], b);
    }
  }

  // ----- the invariant of every run -----

  function CallsFor(calls: seq<Attempt>, msg: nat): nat {
    if calls == [] then 0 else (if calls[0].msg == msg then 1 else 0) + CallsFor(calls[1..], msg)
  }

  predicate LiveFor(a: Attempt, msg: nat) {
    a.msg == msg && !a.refused
  }

  // The calls for a message that the engine did not refuse.
  function Live(calls: seq<Attempt>, msg: nat): nat {
    if calls == [] then 0 else (if LiveFor(calls[0], msg) then 1 else 0) + Live(calls[1..], msg)
  }

  function LogsOfCall(logs: seq<Tagged>, c: nat): seq<StepLog> {
    if logs == [] then [] else (if logs[0].call == c then [logs[0].log] else []) + LogsOfCall(logs[1..], c)
  }

  predicate Complete(a: Attempt) {
    Open(a) && a.pc == |ScriptOf(a)|
  }

  // Each message names its own stored row, of the same workflow, and no other message does.
  ghost predicate Referential(ledger: seq<P.Accepted>, rows: map<nat, Row>, nextExec: nat) {
    && (forall i :: 0 <= i < |ledger| ==> ledger[i].exec in rows && rows[ledger[i].exec].wf == ledger[i].wf)
    && (forall i, j :: 0 <= i < j < |ledger| ==> ledger[i].exec != ledger[j].exec)
    && (forall e :: e in rows ==> e < nextExec)
  }

  predicate CallOk(a: Attempt, ledger: seq<P.Accepted>) {
    && WellFormed(a.parsed, a.obs) && a.msg < |ledger| && ledger[a.msg].exec == a.exec
    && a.pc <= |ScriptOf(a)| && (a.refused ==> a.pc == 0)
  }

  ghost predicate CallsOk(calls: seq<Attempt>, ledger: seq<P.Accepted>) {
    forall c :: 0 <= c < |calls| ==> CallOk(calls[c], ledger)
  }

  // Rows come from calls that have begun and name their execution.
  ghost predicate TagsOk(logs: seq<Tagged>, calls: seq<Attempt>) {
    forall k :: 0 <= k < |logs| ==>
      logs[k].call < |calls| && calls[logs[k].call].pc > 0 && logs[k].log.execId == calls[logs[k].call].exec
  }

  // The rows of one call are those of the part of its script it has performed.
  ghost predicate LogsOk(logs: seq<Tagged>, calls: seq<Attempt>) {
    && TagsOk(logs, calls)
    && (forall c :: 0 <= c < |calls| ==> CallLogs(logs, calls[c], c))
  }

  ghost predicate CallLogs(logs: seq<Tagged>, a: Attempt, c: nat) {
    && WellFormed(a.parsed, a.obs) && a.pc <= |ScriptOf(a)|
    && LogsOfCall(logs, c) == LogsOf(ScriptOf(a)[..a.pc])
  }

  // Where a message stands: waiting for a worker, in engine call number c, or settled.
  datatype Stage = Ready | In(call: nat) | Settled(how: P.How)

  // Nobody, or one message whose engine calls must not overlap. Strictly: not even a last rejection may leave
  // a live call behind.
  datatype Watch = Nobody | Only(id: nat, strict: bool)

  predicate Watches(watch: Watch, id: nat) {
    watch.Only? && watch.id == id
  }

  // The live calls a message may have while no worker waits for it: none, as long as it can be dispatched again.
  function Slack(watch: Watch, nacks: nat): nat {
    if watch.Only? && !watch.strict && nacks >= Topology.MAX_RETRIES then 1 else 0
  }

  // The message's call counter counts its calls. If it is watched, moreover, only refused calls lie behind it
  // while it waits, its current call is its only live one while it is at the engine, and a reply settles it
  // exactly when it had one live call, which is complete.
  ghost predicate Tally(calls: seq<Attempt>, watch: Watch, m: P.Message, stage: Stage) {
    && CallsFor(calls, m.id) == m.runs
    && match stage
       case Ready => Watches(watch, m.id) ==> Live(calls, m.id) <= Slack(watch, m.nacks)
       case In(c) =>
         && c < |calls| && calls[c].msg == m.id
         && (Watches(watch, m.id) ==> Live(calls, m.id) == if calls[c].refused then 0 else 1)
       case Settled(how) =>
         && (how.Replied? || how.RetriesExhausted?)
         && (Watches(watch, m.id) ==>
               if how.Replied? then Live(calls, m.id) == 1 && Answered(calls, m.id)
               else Live(calls, m.id) <= Slack(watch, m.nacks))
  }

  ghost predicate Answered(calls: seq<Attempt>, id: nat) {
    exists c :: 0 <= c < |calls| && calls[c].msg == id && Complete(calls[c])
  }

  function StageOf(x: P.Slot): Stage {
    if x.Calling? then In(x.call) else Ready
  }

  ghost predicate SlotTally(calls: seq<Attempt>, watch: Watch, x: P.Slot) {
    P.Holding(x) ==> Tally(calls, watch, x.msg, StageOf(x))
  }

  ghost predicate Tallied(b: P.State, calls: seq<Attempt>, watch: Watch) {
    && (forall i :: 0 <= i < |b.runQ| ==> Tally(calls, watch, b.runQ[i], Ready))
    && (forall i :: 0 <= i < |b.retryQ| ==> Tally(calls, watch, b.retryQ[i].msg, Ready))
    && (forall i :: 0 <= i < |b.workers| ==> SlotTally(calls, watch, b.workers[i]))
    && (forall i :: 0 <= i < |b.done| ==> Tally(calls, watch, b.done[i].msg, Settled(b.done[i].how)))
  }

  function Progressed(a: Attempt): string
    requires WellFormed(a.parsed, a.obs) && a.pc <= |ScriptOf(a)|
  {
    StatusAfter("pending", ScriptOf(a)[..a.pc])
  }

  // The row of a watched message has the status that its one live call has made of it.
  ghost predicate StatusOk(rows: map<nat, Row>, calls: seq<Attempt>, ledger: seq<P.Accepted>, id: nat)
    requires CallsOk(calls, ledger)
    requires forall i :: 0 <= i < |ledger| ==> ledger[i].exec in rows
  {
    id < |ledger| ==>
      && (forall c :: 0 <= c < |calls| ==> LiveFor(calls[c], id) ==>
                        rows[ledger[id].exec].status == Progressed(calls[c]))
      && (Live(calls, id) == 0 ==> rows[ledger[id].exec].status == "pending")
  }

  ghost predicate Inv(s: State, watch: Watch) {
    && P.Inv(s.broker)
    && Referential(s.broker.ledger, s.rows, s.nextExec)
    && CallsOk(s.calls, s.broker.ledger)
    && LogsOk(s.logs, s.calls)
    && Tallied(s.broker, s.calls, watch)
    && (watch.Only? ==> StatusOk(s.rows, s.calls, s.broker.ledger, watch.id))
  }

  // Worker w is waiting for a call that the engine has not refused.
  predicate Waiting(s: State, w: nat) {
    && w < |s.broker.workers| && s.broker.workers[w].Calling?
    && s.broker.workers[w].call < |s.calls| && !s.calls[s.broker.workers[w].call].refused
  }

  // The worker that a step makes give up on its call: an error reply reaches it, or it loses its connection.
  function GaveUp(step: Step): Option<nat> {
    match step
    case Answer(w, ok) => if ok then None else Some(w)
    case Pass(b) => if b.Lose? then Some(b.w) else None
    case _ => None
  }

  // A message given up in this step can be dispatched again: the broker redelivers it after a connection loss,
  // and after a rejection as long as that was not its last one.
  predicate Again(step: Step, m: P.Message) {
    step.Pass? || m.nacks + 1 < Topology.MAX_RETRIES
  }

  // The worker holding the watched message gives up on a live call only if that was its last delivery, and
  // strictly not even then.
  predicate Honest(s: State, step: Step, watch: Watch) {
    var w := GaveUp(step);
    w.Some? && Waiting(s, w.value) && Watches(watch, s.broker.workers[w.value].msg.id) ==>
      !watch.strict && !Again(step, s.broker.workers[w.value].msg)
  }

  // ----- counting calls -----

  lemma {:induction false} CountSnoc(calls: seq<Attempt>, a: Attempt, msg: nat)
    ensures CallsFor(calls + [a], msg) == CallsFor(calls, msg) + if a.msg == msg then 1 else 0
    ensures Live(calls + [a], msg) == Live(calls, msg) + if LiveFor(a, msg) then 1 else 0
  {
    if calls == [] { assert ([] + [a])[1..] == []; }
    else {
      assert (calls + [a])[1..] == calls[1..] + [a];
      CountSnoc(calls[1..], a, msg);
    }
  }

  lemma {:induction false} CountSwap(calls: seq<Attempt>, c: nat, a: Attempt, msg: nat)
    requires c < |calls| && a.msg == calls[c].msg
    ensures CallsFor(calls[c := a], msg) == CallsFor(calls, msg)
    ensures Live(calls[c := a], msg) + (if LiveFor(calls[c], msg) then 1 else 0)
         == Live(calls, msg) + if LiveFor(a, msg) then 1 else 0
  {
    var cs := calls[c := a];
    if c == 0 {
      assert cs[1..] == calls[1..];
    } else {
      assert cs[1..] == calls[1..][c - 1 := a];
      CountSwap(calls[1..], c - 1, a, msg);
    }
  }

  lemma {:induction false} NoCalls(calls: seq<Attempt>, msg: nat)
    requires forall c :: 0 <= c < |calls| ==> calls[c].msg != msg
    ensures CallsFor(calls, msg) == 0 && Live(calls, msg) == 0
  {
    if calls != [] { NoCalls(calls[1..], msg); }
  }

  lemma {:induction false} LiveAt(calls: seq<Attempt>, c: nat, d: nat, msg: nat)
    requires c < |calls| && d < |calls| && LiveFor(calls[c], msg) && LiveFor(calls[d], msg)
    ensures Live(calls, msg) >= if c == d then 1 else 2
  {
    if c > 0 && d > 0 {
      LiveAt(calls[1..], c - 1, d - 1, msg);
    } else if c != d {
      LiveAt(calls[1..], c + d - 1, c + d - 1, msg);
    }
  }

  lemma {:induction false} LogsOfCallSnoc(logs: seq<Tagged>, t: Tagged, c: nat)
    ensures LogsOfCall(logs + [t], c) == LogsOfCall(logs, c) + if t.call == c then [t.log] else []
  {
    var last := if t.call == c then [t.log] else [];
    if logs == [] { assert [t][1..] == [] && [] + [t] == [t]; }
    else {
      var first := if logs[0].call == c then [logs[0].log] else [];
      assert (logs + [t])[1..] == logs[1..] + [t];
      LogsOfCallSnoc(logs[1..], t, c);
      assert first + (LogsOfCall(logs[1..], c) + last) == LogsOfCall(logs, c) + last;
    }
  }

  lemma {:induction false} NoLogs(logs: seq<Tagged>, c: nat)
    requires forall k :: 0 <= k < |logs| ==> logs[k].call != c
    ensures LogsOfCall(logs, c) == []
  {
    if logs != [] { NoLogs(logs[1..], c); }
  }

  // ----- broker steps move messages about without touching the calls -----

  predicate StartsCall(b: P.State, step: P.Step)
    requires P.Enabled(b, step)
  {
    step.Handle? && P.Decide(b.workers[step.w].msg.deaths, step.row) == P.Call
  }

  lemma SettleTally(b: P.State, w: nat, how: P.How, calls: seq<Attempt>, watch: Watch)
    requires Tallied(b, calls, watch) && w < |b.workers| && P.Holding(b.workers[w])
    requires Tally(calls, watch, b.workers[w].msg, Settled(how))
    ensures Tallied(P.Settle(b, w, how), calls, watch)
  {
  }

  lemma NackTally(b: P.State, w: nat, calls: seq<Attempt>, watch: Watch)
    requires b.topology == Topology.PIPELINE && Tallied(b, calls, watch) && w < |b.workers| && P.Holding(b.workers[w])
    requires Tally(calls, watch, P.Rejected(b.workers[w].msg), Ready)
    ensures Tallied(P.Nack(b, w), calls, watch)
  {
    P.NackIs(b, w);
  }

  lemma LoseTally(b: P.State, w: nat, pos: nat, calls: seq<Attempt>, watch: Watch)
    requires Tallied(b, calls, watch) && P.Enabled(b, P.Lose(w, pos))
    requires b.workers[w].Calling? ==> Tally(calls, watch, b.workers[w].msg, Ready)
    ensures Tallied(P.Apply(b, P.Lose(w, pos)), calls, watch)
  {
    if P.Holding(b.workers[w]) {
      assert SlotTally(calls, watch, b.workers[w]);
      var m := b.workers[w].msg;
      var q := b.runQ[..pos] + [m.(losses := m.losses + 1)] + b.runQ[pos..];
      forall i | 0 <= i < |q| ensures Tally(calls, watch, q[i], Ready) {
        if i < pos { assert q[i] == b.runQ[i]; }
        else if i > pos { assert q[i] == b.runQ[i - 1]; }
      }
    }
  }

  lemma HandleTally(b: P.State, w: nat, row: P.Lookup, call: nat, calls: seq<Attempt>, watch: Watch)
    requires b.topology == Topology.PIPELINE && P.Enabled(b, P.Handle(w, row, call)) && Tallied(b, calls, watch)
    requires !StartsCall(b, P.Handle(w, row, call)) && (row == P.Found || row == P.DbError)
    ensures Tallied(P.Apply(b, P.Handle(w, row, call)), calls, watch)
  {
    assert SlotTally(calls, watch, b.workers[w]);
    match P.Decide(b.workers[w].msg.deaths, row) {
      case DropExhausted => SettleTally(b, w, P.RetriesExhausted, calls, watch);
      case _ => NackTally(b, w, calls, watch);
    }
  }

  lemma ReplyTally(b: P.State, w: nat, ok: bool, calls: seq<Attempt>, watch: Watch)
    requires b.topology == Topology.PIPELINE && P.Enabled(b, P.Reply(w, ok)) && Tallied(b, calls, watch)
    requires if ok then Tally(calls, watch, b.workers[w].msg, Settled(P.Replied))
             else Tally(calls, watch, P.Rejected(b.workers[w].msg), Ready)
    ensures Tallied(P.Apply(b, P.Reply(w, ok)), calls, watch)
  {
    if ok { SettleTally(b, w, P.Replied, calls, watch); } else { NackTally(b, w, calls, watch); }
  }

  lemma PassTally(b: P.State, step: P.Step, calls: seq<Attempt>, watch: Watch)
    requires b.topology == Topology.PIPELINE && P.Enabled(b, step) && Tallied(b, calls, watch)
    requires !step.Publish? && !step.Handle? && !step.Reply?
    requires step.Lose? && b.workers[step.w].Calling? && Watches(watch, b.workers[step.w].msg.id) ==>
               b.workers[step.w].call < |calls| && calls[b.workers[step.w].call].refused
    ensures Tallied(P.Apply(b, step), calls, watch)
  {
    P.Timing(b);
    match step
    case Wake => P.WokenIs(b);
    case Lose(w, pos) =>
      assert SlotTally(calls, watch, b.workers[w]);
      LoseTally(b, w, pos, calls, watch);
    case _ =>
  }

  // ----- engine steps change the calls without moving messages -----

  lemma Elsewhere(b: P.State, w: nat)
    requires P.Inv(b) && w < |b.workers| && P.Holding(b.workers[w])
    ensures forall i :: 0 <= i < |b.runQ| ==> b.runQ[i].id != b.workers[w].msg.id
    ensures forall i :: 0 <= i < |b.retryQ| ==> b.retryQ[i].msg.id != b.workers[w].msg.id
    ensures forall i :: 0 <= i < |b.workers| && i != w && P.Holding(b.workers[i]) ==>
                          b.workers[i].msg.id != b.workers[w].msg.id
    ensures forall i :: 0 <= i < |b.done| ==> b.done[i].msg.id != b.workers[w].msg.id
  {
    var id := b.workers[w].msg.id;
    var here := PF.AtWorker(w);
    forall i | 0 <= i < |b.runQ| ensures b.runQ[i].id != id {
      if b.runQ[i].id == id { PF.AtMostOnePlace(b, here, PF.InRun(i), id); }
    }
    forall i | 0 <= i < |b.retryQ| ensures b.retryQ[i].msg.id != id {
      if b.retryQ[i].msg.id == id { PF.AtMostOnePlace(b, here, PF.InRetry(i), id); }
    }
    forall i | 0 <= i < |b.workers| && i != w && P.Holding(b.workers[i]) ensures b.workers[i].msg.id != id {
      if b.workers[i].msg.id == id { PF.AtMostOnePlace(b, here, PF.AtWorker(i), id); }
    }
    forall i | 0 <= i < |b.done| ensures b.done[i].msg.id != id {
      if b.done[i].msg.id == id { PF.AtMostOnePlace(b, here, PF.Finished(i), id); }
    }
  }

  lemma GrownTally(calls: seq<Attempt>, a: Attempt, watch: Watch, m: P.Message, stage: Stage)
    requires Tally(calls, watch, m, stage) && a.msg != m.id
    ensures Tally(calls + [a], watch, m, stage)
  {
    CountSnoc(calls, a, m.id);
    if Answered(calls, m.id) {
      var c :| 0 <= c < |calls| && calls[c].msg == m.id && Complete(calls[c]);
      assert (calls + [a])[c] == calls[c];
    }
  }

  lemma CallTally(b: P.State, w: nat, row: P.Lookup, a: Attempt, calls: seq<Attempt>, watch: Watch)
    requires P.Inv(b) && P.Enabled(b, P.Handle(w, row, |calls|)) && StartsCall(b, P.Handle(w, row, |calls|))
    requires Tallied(b, calls, watch) && a.msg == b.workers[w].msg.id && !a.refused
    ensures Tallied(P.Apply(b, P.Handle(w, row, |calls|)), calls + [a], watch)
  {
    var m := b.workers[w].msg;
    var t := P.Apply(b, P.Handle(w, row, |calls|));
    Elsewhere(b, w);
    assert SlotTally(calls, watch, b.workers[w]);
    CountSnoc(calls, a, m.id);
    forall i | 0 <= i < |b.runQ| ensures Tally(calls + [a], watch, b.runQ[i], Ready) {
      GrownTally(calls, a, watch, b.runQ[i], Ready);
    }
    forall i | 0 <= i < |b.retryQ| ensures Tally(calls + [a], watch, b.retryQ[i].msg, Ready) {
      GrownTally(calls, a, watch, b.retryQ[i].msg, Ready);
    }
    forall i | 0 <= i < |t.workers| ensures SlotTally(calls + [a], watch, t.workers[i]) {
      if i != w && P.Holding(b.workers[i]) {
        assert SlotTally(calls, watch, b.workers[i]);
        GrownTally(calls, a, watch, b.workers[i].msg, StageOf(b.workers[i]));
      }
    }
    forall i | 0 <= i < |b.done|
      ensures Tally(calls + [a], watch, b.done[i].msg, Settled(b.done[i].how)) {
      GrownTally(calls, a, watch, b.done[i].msg, Settled(b.done[i].how));
    }
  }

  // A call that performs an effect, or that is refused before its first one.
  predicate Changes(a: Attempt, a': Attempt) {
    && a'.msg == a.msg && !a.refused && !Complete(a)
    && (a'.refused ==> a' == a.(refused := true))
  }

  lemma ChangedTally(calls: seq<Attempt>, c: nat, a: Attempt, watch: Watch, m: P.Message, stage: Stage)
    requires c < |calls| && Changes(calls[c], a) && Tally(calls, watch, m, stage)
    ensures Tally(calls[c := a], watch, m, stage)
  {
    CountSwap(calls, c, a, m.id);
    if calls[c].msg == m.id { LiveAt(calls, c, c, m.id); }
    if stage.In? && calls[c].msg == m.id && !calls[stage.call].refused {
      LiveAt(calls, c, stage.call, m.id);
    }
    if Answered(calls, m.id) {
      var d :| 0 <= d < |calls| && calls[d].msg == m.id && Complete(calls[d]);
      assert calls[c := a][d] == calls[d];
      if calls[c].msg == m.id { LiveAt(calls, c, d, m.id); }
    }
  }

  lemma SwapTally(b: P.State, calls: seq<Attempt>, c: nat, a: Attempt, watch: Watch)
    requires Tallied(b, calls, watch) && c < |calls| && Changes(calls[c], a)
    ensures Tallied(b, calls[c := a], watch)
  {
    forall m, stage | Tally(calls, watch, m, stage) ensures Tally(calls[c := a], watch, m, stage) {
      ChangedTally(calls, c, a, watch, m, stage);
    }
  }

  // ----- the status of a row -----

  function Advanced(a: Attempt): Attempt {
    a.(pc := a.pc + 1)
  }

  lemma ScriptPrefix(a: Attempt)
    requires Open(a) && a.pc < |ScriptOf(a)|
    ensures ScriptOf(a)[..a.pc + 1] == ScriptOf(a)[..a.pc] + [ScriptOf(a)[a.pc]]
  {
    PrefixSnoc(ScriptOf(a), a.pc);
  }

  lemma ProgressedStep(a: Attempt)
    requires Open(a) && a.pc < |ScriptOf(a)|
    ensures var x := ScriptOf(a)[a.pc];
            Progressed(Advanced(a)) == if x.SetStatus? then x.status else Progressed(a)
  {
    var x := ScriptOf(a)[a.pc];
    ScriptPrefix(a);
    StatusAppend("pending", ScriptOf(a)[..a.pc], [x]);
    assert [x][1..] == [];
  }

  lemma NewCallStatus(rows: map<nat, Row>, calls: seq<Attempt>, ledger: seq<P.Accepted>, a: Attempt, id: nat)
    requires CallsOk(calls, ledger) && CallOk(a, ledger) && a.pc == 0 && !a.refused
    requires a.msg == id ==> Live(calls, id) == 0
    requires forall i :: 0 <= i < |ledger| ==> ledger[i].exec in rows
    requires StatusOk(rows, calls, ledger, id)
    ensures CallsOk(calls + [a], ledger) && StatusOk(rows, calls + [a], ledger, id)
  {
    assert ScriptOf(a)[..0] == [];
    CountSnoc(calls, a, id);
  }

  lemma RefuseStatus(rows: map<nat, Row>, calls: seq<Attempt>, ledger: seq<P.Accepted>, c: nat, id: nat)
    requires CallsOk(calls, ledger) && c < |calls| && calls[c].pc == 0 && !calls[c].refused
    requires forall i :: 0 <= i < |ledger| ==> ledger[i].exec in rows
    requires StatusOk(rows, calls, ledger, id)
    ensures var calls' := calls[c := calls[c].(refused := true)];
            CallsOk(calls', ledger) && StatusOk(rows, calls', ledger, id)
  {
    var a := calls[c].(refused := true);
    assert CallOk(calls[c], ledger);
    assert ScriptOf(calls[c]) == ScriptOf(a);
    assert ScriptOf(calls[c])[..0] == [];
    CountSwap(calls, c, a, id);
  }

  // A watched message has at most one live call.
  lemma LiveBound(s: State, watch: Watch)
    requires P.Inv(s.broker) && Tallied(s.broker, s.calls, watch) && watch.Only? && watch.id < |s.broker.ledger|
    ensures Live(s.calls, watch.id) <= 1
  {
    var p := PF.SomePlace(s.broker, watch.id);
    match p
    case InRun(i) => assert Tally(s.calls, watch, s.broker.runQ[i], Ready);
    case InRetry(i) => assert Tally(s.calls, watch, s.broker.retryQ[i].msg, Ready);
    case AtWorker(i) => assert SlotTally(s.calls, watch, s.broker.workers[i]);
    case Finished(i) => assert Tally(s.calls, watch, s.broker.done[i].msg, Settled(s.broker.done[i].how));
  }

  lemma OneLive(s: State, c: nat, d: nat, watch: Watch)
    requires Inv(s, watch) && watch.Only? && c < |s.calls| && d < |s.calls|
    requires LiveFor(s.calls[c], watch.id) && LiveFor(s.calls[d], watch.id)
    ensures c == d
  {
    assert CallOk(s.calls[c], s.broker.ledger);
    LiveAt(s.calls, c, d, watch.id);
    LiveBound(s, watch);
  }

  lemma SameExecSameMsg(s: State, c: nat, d: nat)
    requires Referential(s.broker.ledger, s.rows, s.nextExec) && CallsOk(s.calls, s.broker.ledger)
    requires c < |s.calls| && d < |s.calls| && s.calls[c].exec == s.calls[d].exec
    ensures s.calls[c].msg == s.calls[d].msg
  {
    assert CallOk(s.calls[c], s.broker.ledger) && CallOk(s.calls[d], s.broker.ledger);
  }

  ghost predicate Alone(calls: seq<Attempt>, c: nat)
    requires c < |calls|
  {
    forall d :: 0 <= d < |calls| && d != c && !calls[d].refused ==> calls[d].exec != calls[c].exec
  }

  lemma LiveIsAlone(s: State, c: nat, watch: Watch)
    requires Inv(s, watch) && watch.Only? && c < |s.calls| && LiveFor(s.calls[c], watch.id)
    ensures Alone(s.calls, c)
  {
    forall d | 0 <= d < |s.calls| && d != c && !s.calls[d].refused ensures s.calls[d].exec != s.calls[c].exec {
      if s.calls[d].exec == s.calls[c].exec {
        SameExecSameMsg(s, c, d);
        OneLive(s, c, d, watch);
      }
    }
  }

  lemma PerformStatus(rows: map<nat, Row>, calls: seq<Attempt>, ledger: seq<P.Accepted>, c: nat, row: Row, id: nat)
    requires CallsOk(calls, ledger) && c < |calls| && Open(calls[c]) && calls[c].pc < |ScriptOf(calls[c])|
    requires calls[c].msg == id ==> Alone(calls, c) && row.status == Progressed(Advanced(calls[c]))
    requires forall i :: 0 <= i < |ledger| ==> ledger[i].exec in rows
    requires forall j, k :: 0 <= j < k < |ledger| ==> ledger[j].exec != ledger[k].exec
    requires StatusOk(rows, calls, ledger, id)
    requires CallsOk(calls[c := Advanced(calls[c])], ledger)
    ensures StatusOk(rows[calls[c].exec := row], calls[c := Advanced(calls[c])], ledger, id)
  {
    var calls' := calls[c := Advanced(calls[c])];
    assert CallOk(calls[c], ledger);
    CountSwap(calls, c, Advanced(calls[c]), id);
    if calls[c].msg == id { LiveAt(calls, c, c, id); }
    forall d | 0 <= d < |calls'| && LiveFor(calls'[d], id) && id < |ledger|
      ensures rows[calls[c].exec := row][ledger[id].exec].status == Progressed(calls'[d]) {
      assert CallOk(calls[d], ledger);
    }
  }

  // ----- each step keeps the invariant -----

  lemma PublishedTally(b: P.State, exec: nat, wf: nat, calls: seq<Attempt>, watch: Watch)
    requires b.topology == Topology.PIPELINE && Tallied(b, calls, watch) && CallsOk(calls, b.ledger)
    ensures Tallied(P.Apply(b, P.Publish(exec, wf)), calls, watch)
    ensures Live(calls, |b.ledger|) == 0
  {
    P.PublishIs(b, exec, wf);
    forall c | 0 <= c < |calls| ensures calls[c].msg != |b.ledger| { assert CallOk(calls[c], b.ledger); }
    NoCalls(calls, |b.ledger|);
  }

  predicate Extended(ledger: seq<P.Accepted>, ledger': seq<P.Accepted>, exec: nat, wf: nat) {
    && |ledger'| == |ledger| + 1 && ledger'[..|ledger|] == ledger
    && ledger'[|ledger|].exec == exec && ledger'[|ledger|].wf == wf
  }

  lemma NewRowStatus(s: State, wf: nat, ledger: seq<P.Accepted>)
    requires Referential(s.broker.ledger, s.rows, s.nextExec) && CallsOk(s.calls, s.broker.ledger)
    requires ledger == s.broker.ledger || Extended(s.broker.ledger, ledger, s.nextExec, wf)
    ensures Referential(ledger, s.rows[s.nextExec := Row(wf, "pending")], s.nextExec + 1)
    ensures CallsOk(s.calls, ledger)
    ensures forall id: nat :: StatusOk(s.rows, s.calls, s.broker.ledger, id) ==>
                                StatusOk(s.rows[s.nextExec := Row(wf, "pending")], s.calls, ledger, id)
  {
    var before := s.broker.ledger;
    var rows := s.rows[s.nextExec := Row(wf, "pending")];
    assert forall i :: 0 <= i < |before| ==> ledger[i] == before[i];
    assert forall i :: 0 <= i < |before| ==> before[i].exec in s.rows && before[i].exec != s.nextExec;
    forall c | 0 <= c < |s.calls| ensures CallOk(s.calls[c], ledger) && s.calls[c].exec != s.nextExec {
      assert CallOk(s.calls[c], before);
    }
  }

  lemma TriggerKeeps(s: State, wf: nat, sent: bool, watch: Watch)
    requires Inv(s, watch)
    ensures Inv(Apply(s, Trigger(wf, sent)), watch)
  {
    if sent {
      P.PublishKeeps(s.broker, s.nextExec, wf);
      P.PublishIs(s.broker, s.nextExec, wf);
      PublishedTally(s.broker, s.nextExec, wf, s.calls, watch);
      NewRowStatus(s, wf, s.broker.ledger + [P.Accepted(s.nextExec, wf, s.broker.now)]);
    } else {
      NewRowStatus(s, wf, s.broker.ledger);
    }
  }

  // A broker step that publishes nothing.
  lemma LedgerStays(b: P.State, step: P.Step)
    requires b.topology == Topology.PIPELINE && P.Enabled(b, step) && !step.Publish?
    ensures P.Apply(b, step).ledger == b.ledger
  {
    P.Timing(b);
    match step
    case Handle(w, row, call) => P.NackIs(b, w);
    case Reply(w, ok) => P.NackIs(b, w);
    case Wake => P.WokenIs(b);
    case _ =>
  }

  lemma BrokerKeeps(s: State, b: P.Step, watch: Watch)
    requires Inv(s, watch) && P.Enabled(s.broker, b) && !b.Publish?
    requires Tallied(P.Apply(s.broker, b), s.calls, watch)
    ensures Inv(s.(broker := P.Apply(s.broker, b)), watch)
  {
    P.StepKeepsInv(s.broker, b);
    LedgerStays(s.broker, b);
  }

  lemma ListedAt(b: P.State, w: nat)
    requires P.Inv(b) && w < |b.workers| && P.Holding(b.workers[w])
    ensures P.Listed(b.workers[w].msg, b.ledger)
  {
  }

  lemma NewCallLogs(logs: seq<Tagged>, calls: seq<Attempt>, a: Attempt)
    requires LogsOk(logs, calls) && WellFormed(a.parsed, a.obs) && a.pc == 0
    ensures LogsOk(logs, calls + [a])
  {
    NoLogs(logs, |calls|);
    assert ScriptOf(a)[..0] == [];
  }

  lemma CallBroker(s: State, w: nat, a: Attempt, watch: Watch)
    requires P.Inv(s.broker) && Tallied(s.broker, s.calls, watch) && w < |s.broker.workers| && s.broker.workers[w].Got?
    requires StartsCall(s.broker, TakeStep(s, w, false)) && a.msg == s.broker.workers[w].msg.id && !a.refused
    ensures var b := P.Apply(s.broker, TakeStep(s, w, false));
            P.Inv(b) && b.ledger == s.broker.ledger && Tallied(b, s.calls + [a], watch)
    ensures Watches(watch, a.msg) ==> Live(s.calls, a.msg) == 0
  {
    var b := TakeStep(s, w, false);
    P.StepKeepsInv(s.broker, b);
    LedgerStays(s.broker, b);
    assert SlotTally(s.calls, watch, s.broker.workers[w]);
    CallTally(s.broker, w, b.row, a, s.calls, watch);
  }

  lemma CallKeeps(s: State, w: nat, parsed: Option<seq<StepDef>>, obs: seq<Obs>, watch: Watch)
    requires Inv(s, watch) && Enabled(s, Take(w, false, parsed, obs)) && StartsCall(s.broker, TakeStep(s, w, false))
    ensures Inv(Apply(s, Take(w, false, parsed, obs)), watch)
  {
    var m := s.broker.workers[w].msg;
    var a := Attempt(m.exec, m.id, parsed, obs, 0, false);
    ListedAt(s.broker, w);
    assert P.Decide(m.deaths, TakeStep(s, w, false).row) == P.Call;
    CallBroker(s, w, a, watch);
    NewCallLogs(s.logs, s.calls, a);
    if watch.Only? { NewCallStatus(s.rows, s.calls, s.broker.ledger, a, watch.id); }
  }

  lemma RowFound(s: State, w: nat, watch: Watch)
    requires Inv(s, watch) && w < |s.broker.workers| && s.broker.workers[w].Got?
    ensures s.broker.workers[w].msg.exec in s.rows
  {
    ListedAt(s.broker, w);
  }

  lemma DropKeeps(s: State, w: nat, dbError: bool, watch: Watch)
    requires Inv(s, watch) && w < |s.broker.workers| && s.broker.workers[w].Got?
    requires !StartsCall(s.broker, TakeStep(s, w, dbError))
    ensures Inv(s.(broker := P.Apply(s.broker, TakeStep(s, w, dbError))), watch)
  {
    var b := TakeStep(s, w, dbError);
    RowFound(s, w, watch);
    HandleTally(s.broker, w, b.row, b.call, s.calls, watch);
    BrokerKeeps(s, b, watch);
  }

  lemma NoCallIs(s: State, w: nat, dbError: bool, parsed: Option<seq<StepDef>>, obs: seq<Obs>)
    requires Enabled(s, Take(w, dbError, parsed, obs)) && !StartsCall(s.broker, TakeStep(s, w, dbError))
    ensures Apply(s, Take(w, dbError, parsed, obs)) == s.(broker := P.Apply(s.broker, TakeStep(s, w, dbError)))
  {
  }

  lemma FailedLookupStartsNoCall(s: State, w: nat)
    requires w < |s.broker.workers| && s.broker.workers[w].Got?
    ensures !StartsCall(s.broker, TakeStep(s, w, true))
  {
  }

  lemma TakeKeeps(s: State, w: nat, dbError: bool, parsed: Option<seq<StepDef>>, obs: seq<Obs>, watch: Watch)
    requires Inv(s, watch) && Enabled(s, Take(w, dbError, parsed, obs))
    ensures Inv(Apply(s, Take(w, dbError, parsed, obs)), watch)
  {
    FailedLookupStartsNoCall(s, w);
    if StartsCall(s.broker, TakeStep(s, w, dbError)) {
      CallKeeps(s, w, parsed, obs, watch);
    } else {
      NoCallIs(s, w, dbError, parsed, obs);
      DropKeeps(s, w, dbError, watch);
    }
  }

  lemma OwnLogs(a: Attempt)
    requires Open(a) && a.pc < |ScriptOf(a)|
    ensures LogsOf(ScriptOf(a)[..a.pc + 1]) == LogsOf(ScriptOf(a)[..a.pc]) + LogsIn(ScriptOf(a)[a.pc])
  {
    var x := ScriptOf(a)[a.pc];
    ScriptPrefix(a);
    LogsAppend(ScriptOf(a)[..a.pc], [x]);
    assert [x][1..] == [];
  }

  lemma QuietLogs(logs: seq<Tagged>, calls: seq<Attempt>, c: nat, a: Attempt)
    requires LogsOk(logs, calls) && c < |calls| && a.exec == calls[c].exec && a.pc > 0
    requires WellFormed(a.parsed, a.obs) && a.pc <= |ScriptOf(a)|
    requires LogsOf(ScriptOf(a)[..a.pc]) == LogsOf(ScriptOf(calls[c])[..calls[c].pc])
    ensures LogsOk(logs, calls[c := a])
  {
  }

  lemma PerformLogs(logs: seq<Tagged>, calls: seq<Attempt>, c: nat, x: Effect)
    requires LogsOk(logs, calls) && c < |calls| && Open(calls[c]) && calls[c].pc < |ScriptOf(calls[c])|
    requires x == ScriptOf(calls[c])[calls[c].pc]
    ensures LogsOk(if x.WriteLog? then logs + [Tagged(c, x.log)] else logs, calls[c := Advanced(calls[c])])
  {
    var a := calls[c];
    OwnLogs(a);
    assert ScriptOf(Advanced(a)) == ScriptOf(a);
    if x.WriteLog? {
      F.ScriptNamesExec(a.exec, a.parsed, a.obs, a.pc);
      WrittenLogs(logs, calls, c, x.log, Advanced(a));
    } else {
      QuietLogs(logs, calls, c, Advanced(a));
    }
  }

  lemma WrittenTags(logs: seq<Tagged>, calls: seq<Attempt>, c: nat, log: StepLog, a: Attempt)
    requires TagsOk(logs, calls) && c < |calls| && log.execId == a.exec == calls[c].exec && a.pc > 0
    ensures TagsOk(logs + [Tagged(c, log)], calls[c := a])
  {
  }

  lemma WrittenLogs(logs: seq<Tagged>, calls: seq<Attempt>, c: nat, log: StepLog, a: Attempt)
    requires LogsOk(logs, calls) && c < |calls| && log.execId == a.exec == calls[c].exec && a.pc > 0
    requires WellFormed(a.parsed, a.obs) && a.pc <= |ScriptOf(a)|
    requires LogsOf(ScriptOf(a)[..a.pc]) == LogsOf(ScriptOf(calls[c])[..calls[c].pc]) + [log]
    ensures LogsOk(logs + [Tagged(c, log)], calls[c := a])
  {
    var logs' := logs + [Tagged(c, log)];
    var calls' := calls[c := a];
    WrittenTags(logs, calls, c, log, a);
    forall d | 0 <= d < |calls'| ensures CallLogs(logs', calls'[d], d) {
      assert CallLogs(logs, calls[d], d);
      LogsOfCallSnoc(logs, Tagged(c, log), d);
    }
  }

  lemma StoreKeeps(s: State, c: nat, x: Effect)
    requires c < |s.calls|
    ensures Store(s, c, x).calls == s.calls && Store(s, c, x).broker == s.broker
  {
  }

  lemma PerformedCalls(s: State, c: nat)
    requires Enabled(s, Perform(c))
    ensures Apply(s, Perform(c)).calls == s.calls[c := Advanced(s.calls[c])] && Apply(s, Perform(c)).broker == s.broker
  {
    StoreKeeps(s, c, ScriptOf(s.calls[c])[s.calls[c].pc]);
  }

  lemma StoreIs(s: State, c: nat, x: Effect)
    requires c < |s.calls| && s.calls[c].exec in s.rows
    ensures var e := s.calls[c].exec;
            Store(s, c, x)
              == s.(rows := if x.SetStatus? then s.rows[e := s.rows[e].(status := x.status)] else s.rows,
                    logs := if x.WriteLog? then s.logs + [Tagged(c, x.log)] else s.logs,
                    feed := if x.Publish? then s.feed + [Posted(c, s.rows[e].wf, x.event)] else s.feed)
  {
  }

  lemma EffectIs(s: State, c: nat)
    requires Enabled(s, Perform(c)) && s.calls[c].exec in s.rows
    ensures var x := ScriptOf(s.calls[c])[s.calls[c].pc];
            var e := s.calls[c].exec;
            Apply(s, Perform(c))
              == s.(rows := if x.SetStatus? then s.rows[e := s.rows[e].(status := x.status)] else s.rows,
                    logs := if x.WriteLog? then s.logs + [Tagged(c, x.log)] else s.logs,
                    feed := if x.Publish? then s.feed + [Posted(c, s.rows[e].wf, x.event)] else s.feed,
                    calls := s.calls[c := Advanced(s.calls[c])])
  {
    var x := ScriptOf(s.calls[c])[s.calls[c].pc];
    StoreIs(s, c, x);
  }

  lemma Stores(s: State, c: nat, watch: Watch)
    requires Inv(s, watch) && Enabled(s, Perform(c))
    ensures s.calls[c].exec in s.rows
    ensures var x := ScriptOf(s.calls[c])[s.calls[c].pc];
            var e := s.calls[c].exec;
            Apply(s, Perform(c))
              == s.(rows := if x.SetStatus? then s.rows[e := s.rows[e].(status := x.status)] else s.rows,
                    logs := if x.WriteLog? then s.logs + [Tagged(c, x.log)] else s.logs,
                    feed := if x.Publish? then s.feed + [Posted(c, s.rows[e].wf, x.event)] else s.feed,
                    calls := s.calls[c := Advanced(s.calls[c])])
  {
    assert CallOk(s.calls[c], s.broker.ledger);
    EffectIs(s, c);
  }

  lemma StatusStored(s: State, c: nat, watch: Watch)
    requires Inv(s, watch) && watch.Only? && Enabled(s, Perform(c)) && s.calls[c].exec in s.rows
    requires s.calls[c].msg == watch.id
    ensures var a, x := s.calls[c], ScriptOf(s.calls[c])[s.calls[c].pc];
            (if x.SetStatus? then s.rows[a.exec := s.rows[a.exec].(status := x.status)] else s.rows)
              == s.rows[a.exec := s.rows[a.exec].(status := Progressed(Advanced(a)))]
  {
    var a := s.calls[c];
    assert CallOk(a, s.broker.ledger);
    ProgressedStep(a);
    var row := s.rows[a.exec];
    assert LiveFor(a, watch.id) && row.status == Progressed(a);
    assert s.rows[a.exec := row] == s.rows;
  }

  lemma PerformRows(s: State, c: nat, watch: Watch)
    requires Inv(s, watch) && watch.Only? && Enabled(s, Perform(c)) && s.calls[c].exec in s.rows
    requires CallsOk(s.calls[c := Advanced(s.calls[c])], s.broker.ledger)
    ensures var a, x := s.calls[c], ScriptOf(s.calls[c])[s.calls[c].pc];
            var rows := if x.SetStatus? then s.rows[a.exec := s.rows[a.exec].(status := x.status)] else s.rows;
            StatusOk(rows, s.calls[c := Advanced(a)], s.broker.ledger, watch.id)
  {
    var a, x := s.calls[c], ScriptOf(s.calls[c])[s.calls[c].pc];
    if a.msg == watch.id {
      StatusStored(s, c, watch);
      LiveIsAlone(s, c, watch);
      PerformStatus(s.rows, s.calls, s.broker.ledger, c, s.rows[a.exec].(status := Progressed(Advanced(a))), watch.id);
    } else {
      var row := if x.SetStatus? then s.rows[a.exec].(status := x.status) else s.rows[a.exec];
      assert !x.SetStatus? ==> s.rows[a.exec := row] == s.rows;
      PerformStatus(s.rows, s.calls, s.broker.ledger, c, row, watch.id);
    }
  }

  lemma RowsStay(ledger: seq<P.Accepted>, rows: map<nat, Row>, nextExec: nat, e: nat, status: string)
    requires Referential(ledger, rows, nextExec) && e in rows
    ensures Referential(ledger, rows[e := rows[e].(status := status)], nextExec)
  {
  }

  lemma AdvancedOk(calls: seq<Attempt>, ledger: seq<P.Accepted>, c: nat)
    requires CallsOk(calls, ledger) && c < |calls| && Open(calls[c]) && calls[c].pc < |ScriptOf(calls[c])|
    ensures CallsOk(calls[c := Advanced(calls[c])], ledger) && Changes(calls[c], Advanced(calls[c]))
  {
    assert CallOk(calls[c], ledger);
  }

  lemma PerformKeeps(s: State, c: nat, watch: Watch)
    requires Inv(s, watch) && Enabled(s, Perform(c))
    ensures Inv(Apply(s, Perform(c)), watch)
  {
    var a := s.calls[c];
    var x := ScriptOf(a)[a.pc];
    Stores(s, c, watch);
    AdvancedOk(s.calls, s.broker.ledger, c);
    PerformLogs(s.logs, s.calls, c, x);
    SwapTally(s.broker, s.calls, c, Advanced(a), watch);
    if x.SetStatus? { RowsStay(s.broker.ledger, s.rows, s.nextExec, a.exec, x.status); }
    if watch.Only? { PerformRows(s, c, watch); }
  }

  lemma RefuseLogs(logs: seq<Tagged>, calls: seq<Attempt>, c: nat)
    requires LogsOk(logs, calls) && c < |calls| && calls[c].pc == 0
    ensures LogsOk(logs, calls[c := calls[c].(refused := true)])
  {
    var a := calls[c].(refused := true);
    assert CallLogs(logs, calls[c], c);
    assert ScriptOf(a) == ScriptOf(calls[c]);
  }

  lemma RefuseCalls(calls: seq<Attempt>, ledger: seq<P.Accepted>, c: nat)
    requires CallsOk(calls, ledger) && c < |calls| && calls[c].pc == 0 && !calls[c].refused
    ensures CallsOk(calls[c := calls[c].(refused := true)], ledger)
    ensures Changes(calls[c], calls[c].(refused := true))
  {
    assert CallOk(calls[c], ledger);
    assert ScriptOf(calls[c].(refused := true)) == ScriptOf(calls[c]);
  }

  lemma RefuseKeeps(s: State, c: nat, watch: Watch)
    requires Inv(s, watch) && Enabled(s, Refuse(c))
    ensures Inv(Apply(s, Refuse(c)), watch)
  {
    RefuseCalls(s.calls, s.broker.ledger, c);
    RefuseLogs(s.logs, s.calls, c);
    SwapTally(s.broker, s.calls, c, s.calls[c].(refused := true), watch);
    if watch.Only? { RefuseStatus(s.rows, s.calls, s.broker.ledger, c, watch.id); }
  }

  lemma AnswerKeeps(s: State, w: nat, ok: bool, watch: Watch)
    requires Inv(s, watch) && Enabled(s, Answer(w, ok)) && Honest(s, Answer(w, ok), watch)
    ensures Inv(Apply(s, Answer(w, ok)), watch)
  {
    assert SlotTally(s.calls, watch, s.broker.workers[w]);
    ReplyTally(s.broker, w, ok, s.calls, watch);
    BrokerKeeps(s, P.Reply(w, ok), watch);
  }

  // Every step keeps the invariant, whatever replies, losses and failures occur, and what it says of a watched
  // message as long as the step is honest towards that message.
  lemma StepKeepsInv(s: State, step: Step, watch: Watch)
    requires Inv(s, watch) && Enabled(s, step) && Honest(s, step, watch)
    ensures Inv(Apply(s, step), watch)
  {
    match step
    case Trigger(wf, sent) => TriggerKeeps(s, wf, sent, watch);
    case Take(w, dbError, parsed, obs) => TakeKeeps(s, w, dbError, parsed, obs, watch);
    case Perform(c) => PerformKeeps(s, c, watch);
    case Refuse(c) => RefuseKeeps(s, c, watch);
    case Answer(w, ok) => AnswerKeeps(s, w, ok, watch);
    case Pass(b) =>
      if b.Lose? { assert SlotTally(s.calls, watch, s.broker.workers[b.w]); }
      PassTally(s.broker, b, s.calls, watch);
      BrokerKeeps(s, b, watch);
  }

  ghost predicate AllHonest(s: State, trace: seq<Step>, watch: Watch)
    requires Legal(s, trace)
    decreases |trace|
  {
    watch.Nobody? || trace == [] || (Honest(s, trace[0], watch) && AllHonest(Apply(s, trace[0]), trace[1..], watch))
  }

  lemma InitTallied(n: nat, watch: Watch)
    ensures Tallied(P.Init(n), [], watch)
  {
  }

  lemma InitRest(n: nat)
    ensures Referential(P.Init(n).ledger, map[], 1) && CallsOk([], P.Init(n).ledger) && LogsOk([], [])
    ensures forall id: nat :: StatusOk(map[], [], P.Init(n).ledger, id)
  {
  }

  lemma InitInv(n: nat, watch: Watch)
    ensures Inv(Init(n), watch)
  {
    P.InitInv(n);
    InitTallied(n, watch);
    InitRest(n);
  }

  lemma {:induction false} ReachableInv(s: State, trace: seq<Step>, watch: Watch)
    requires Inv(s, watch) && Legal(s, trace) && AllHonest(s, trace, watch)
    ensures Inv(After(s, trace), watch)
    decreases |trace|
  {
    if trace != [] {
      StepKeepsInv(s, trace[0], watch);
      ReachableInv(Apply(s, trace[0]), trace[1..], watch);
    }
  }

  lemma Reached(n: nat, trace: seq<Step>, watch: Watch)
    requires Legal(Init(n), trace) && AllHonest(Init(n), trace, watch)
    ensures Inv(After(Init(n), trace), watch)
  {
    InitInv(n, watch);
    ReachableInv(Init(n), trace, watch);
  }
}
