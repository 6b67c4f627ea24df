/** What the whole pipeline guarantees in every reachable state, and what it guarantees of one message as
    long as no worker gives up on a live call of it while it can be dispatched again. */
module SystemFacts {
  import opened Json
  import opened Events
  import opened Engine
  import opened System
  import F = EngineFacts
  import P = Protocol
  import PF = ProtocolFacts
  import Topology

  // ----- messages and rows -----

  predicate Present(b: P.State, p: PF.Place) {
    match p
    case InRun(i) => i < |b.runQ|
    case InRetry(i) => i < |b.retryQ|
    case AtWorker(i) => i < |b.workers| && P.Holding(b.workers[i])
    case Finished(i) => i < |b.done|
  }

  function MessageAt(b: P.State, p: PF.Place): P.Message
    requires Present(b, p)
  {
    match p
    case InRun(i) => b.runQ[i]
    case InRetry(i) => b.retryQ[i].msg
    case AtWorker(i) => b.workers[i].msg
    case Finished(i) => b.done[i].msg
  }

  lemma PresentListed(b: P.State, p: PF.Place)
    requires P.Inv(b) && Present(b, p)
    ensures P.Listed(MessageAt(b, p), b.ledger)
  {
  }

  lemma PresentUnique(s: State, p: PF.Place, q: PF.Place)
    requires Inv(s, Nobody) && Present(s.broker, p) && Present(s.broker, q)
    requires MessageAt(s.broker, p).exec == MessageAt(s.broker, q).exec
    ensures p == q
  {
    PresentListed(s.broker, p);
    PresentListed(s.broker, q);
    PF.AtMostOnePlace(s.broker, p, q, MessageAt(s.broker, p).id);
  }

  ghost predicate NamesItsRow(s: State, p: PF.Place) {
    Present(s.broker, p) ==>
      var m := MessageAt(s.broker, p);
      m.exec in s.rows && s.rows[m.exec].wf == m.wf
      && (p.Finished? ==> s.broker.done[p.i].how.Replied? || s.broker.done[p.i].how.RetriesExhausted?)
  }

  ghost predicate SameRow(b: P.State, p: PF.Place, q: PF.Place) {
    Present(b, p) && Present(b, q) && MessageAt(b, p).exec == MessageAt(b, q).exec
  }

  lemma PresentNames(s: State, p: PF.Place)
    requires Inv(s, Nobody)
    ensures NamesItsRow(s, p)
  {
    if Present(s.broker, p) {
      PresentListed(s.broker, p);
      if p.Finished? {
        var d := s.broker.done[p.i];
        assert Tally(s.calls, Nobody, d.msg, Settled(d.how));
      }
    }
  }

  ghost predicate AllNamed(s: State) {
    && (forall p :: NamesItsRow(s, p))
    && (forall p, q :: SameRow(s.broker, p, q) ==> p == q)
  }

  lemma InvNamed(s: State)
    requires Inv(s, Nobody)
    ensures AllNamed(s)
  {
    forall p ensures NamesItsRow(s, p) { PresentNames(s, p); }
    forall p, q | SameRow(s.broker, p, q) ensures p == q { PresentUnique(s, p, q); }
  }

  // Whatever fails: each message names an existing row of its own workflow and is never dropped as unreadable
  // or because its row is missing, and no two messages name the same row.
  lemma ReferentialIntegrity(n: nat, trace: seq<Step>)
    requires Legal(Init(n), trace)
    ensures AllNamed(After(Init(n), trace))
  {
    Reached(n, trace, Nobody);
    InvNamed(After(Init(n), trace));
  }

  // ----- attempts -----

  lemma PrefixRows(es: seq<Effect>, n: nat)
    requires n <= |es|
    ensures LogsOf(es[..n]) <= LogsOf(es)
  {
    LogsAppend(es[..n], es[n..]);
    assert es[..n] + es[n..] == es;
  }

  function Steps(a: Attempt): seq<StepDef> {
    if a.parsed.Some? then a.parsed.value else []
  }

  lemma PrefixAccount(rows: seq<StepLog>, whole: seq<StepLog>, e: nat, steps: seq<StepDef>)
    requires rows <= whole && F.OfSteps(whole, e, steps) && F.OnlyLastFails(whole) && F.Chained(whole, "{}")
    ensures F.OfSteps(rows, e, steps) && F.OnlyLastFails(rows) && F.Chained(rows, "{}")
  {
    forall j | 0 <= j < |rows| - 1 ensures rows[j].output == rows[j + 1].input {
      assert rows[j] == whole[j] && rows[j + 1] == whole[j + 1];
    }
  }

  predicate AttemptRows(a: Attempt, rows: seq<StepLog>) {
    && F.OfSteps(rows, a.exec, Steps(a)) && F.OnlyLastFails(rows) && F.Chained(rows, "{}")
    && (a.refused ==> rows == [])
    && (Complete(a) ==> EndsRun(rows, Steps(a)))
  }

  // A success row for every step, or a failed row at the end.
  predicate EndsRun(rows: seq<StepLog>, steps: seq<StepDef>) {
    (|rows| == |steps| && F.AllSucceed(rows)) || (rows != [] && rows[|rows| - 1].status == "failed")
  }

  // Whatever replies are lost and however attempts interleave, the rows that one engine call has written
  // follow the step list from its start, chain output to input from the empty object, and are all success
  // rows except possibly the last. A completed call has written a row for every step or ended with a failure.
  lemma AttemptDecomposition(n: nat, trace: seq<Step>, c: nat)
    requires Legal(Init(n), trace) && c < |After(Init(n), trace).calls|
    ensures var s := After(Init(n), trace);
            AttemptRows(s.calls[c], LogsOfCall(s.logs, c))
  {
    Reached(n, trace, Nobody);
    CallRows(After(Init(n), trace), c);
  }

  lemma FullRows(a: Attempt)
    requires WellFormed(a.parsed, a.obs)
    ensures var rows := LogsOf(ScriptOf(a));
            && F.OfSteps(rows, a.exec, Steps(a)) && F.OnlyLastFails(rows) && F.Chained(rows, "{}")
            && EndsRun(rows, Steps(a))
  {
    VerdictRows(a);
    F.ScriptReads(a.exec, a.parsed, a.obs);
  }

  lemma VerdictRows(a: Attempt)
    requires WellFormed(a.parsed, a.obs)
    ensures var rows := LogsOf(Execute(EngineFactory, a.exec, a.parsed, a.obs).effects);
            && F.OfSteps(rows, a.exec, Steps(a)) && F.OnlyLastFails(rows) && F.Chained(rows, "{}")
            && EndsRun(rows, Steps(a))
  {
    F.LogsDetermineStatus(EngineFactory, a.exec, a.parsed, a.obs);
    var work := F.ExecuteShape(EngineFactory, a.exec, a.parsed, a.obs);
  }

  lemma PartRows(a: Attempt)
    requires WellFormed(a.parsed, a.obs) && a.pc <= |ScriptOf(a)| && (a.refused ==> a.pc == 0)
    ensures AttemptRows(a, LogsOf(ScriptOf(a)[..a.pc]))
  {
    var whole, n := ScriptOf(a), a.pc;
    FullRows(a);
    PrefixRows(whole, n);
    PrefixAccount(LogsOf(whole[..n]), LogsOf(whole), a.exec, Steps(a));
    PrefixEnds(whole);
  }

  lemma PrefixEnds(es: seq<Effect>)
    ensures es[..0] == [] && es[..|es|] == es
  {
  }

  lemma CallRows(s: State, c: nat)
    requires Inv(s, Nobody) && c < |s.calls|
    ensures AttemptRows(s.calls[c], LogsOfCall(s.logs, c))
  {
    assert CallOk(s.calls[c], s.broker.ledger) && CallLogs(s.logs, s.calls[c], c);
    PartRows(s.calls[c]);
  }

  // ----- how many attempts -----

  lemma RunsBounded(b: P.State, p: PF.Place)
    requires P.Inv(b) && Present(b, p)
    ensures MessageAt(b, p).runs <= P.Topology.MAX_RETRIES + MessageAt(b, p).losses
  {
    if p.AtWorker? { assert P.SlotOk(b.workers[p.i], b.now); }
  }

  lemma RunsAreCalls(s: State, p: PF.Place)
    requires Inv(s, Nobody) && Present(s.broker, p)
    ensures MessageAt(s.broker, p).runs == CallsFor(s.calls, MessageAt(s.broker, p).id)
  {
    match p
    case InRun(i) => assert Tally(s.calls, Nobody, s.broker.runQ[i], Ready);
    case InRetry(i) => assert Tally(s.calls, Nobody, s.broker.retryQ[i].msg, Ready);
    case AtWorker(i) => assert SlotTally(s.calls, Nobody, s.broker.workers[i]);
    case Finished(i) => assert Tally(s.calls, Nobody, s.broker.done[i].msg, Settled(s.broker.done[i].how));
  }

  function Loss(step: Step): nat {
    if step.Pass? && step.step.Lose? then 1 else 0
  }

  function Losses(trace: seq<Step>): nat {
    if trace == [] then 0 else Loss(trace[0]) + Losses(trace[1..])
  }

  ghost predicate LostAtMost(b: P.State, k: nat) {
    && (forall i :: 0 <= i < |b.runQ| ==> b.runQ[i].losses <= k)
    && (forall i :: 0 <= i < |b.retryQ| ==> b.retryQ[i].msg.losses <= k)
    && (forall i :: 0 <= i < |b.workers| ==> P.Holding(b.workers[i]) ==> b.workers[i].msg.losses <= k)
    && (forall i :: 0 <= i < |b.done| ==> b.done[i].msg.losses <= k)
  }

  lemma LoseCounts(b: P.State, w: nat, pos: nat, k: nat)
    requires LostAtMost(b, k) && P.Enabled(b, P.Lose(w, pos))
    ensures LostAtMost(P.Apply(b, P.Lose(w, pos)), k + 1)
  {
    if P.Holding(b.workers[w]) {
      var m := b.workers[w].msg;
      var q := b.runQ[..pos] + [m.(losses := m.losses + 1)] + b.runQ[pos..];
      forall i | 0 <= i < |q| ensures q[i].losses <= k + 1 {
        if i < pos { assert q[i] == b.runQ[i]; }
        else if i > pos { assert q[i] == b.runQ[i - 1]; }
      }
    }
  }

  lemma NackCounts(b: P.State, w: nat, k: nat)
    requires b.topology == Topology.PIPELINE && LostAtMost(b, k) && w < |b.workers| && P.Holding(b.workers[w])
    ensures LostAtMost(P.Nack(b, w), k) && P.Nack(b, w).topology == Topology.PIPELINE
  {
    P.NackIs(b, w);
  }

  lemma SettleCounts(b: P.State, w: nat, how: P.How, k: nat)
    requires LostAtMost(b, k) && w < |b.workers| && P.Holding(b.workers[w])
    ensures LostAtMost(P.Settle(b, w, how), k)
  {
  }

  lemma HandleCounts(b: P.State, w: nat, row: P.Lookup, call: nat, k: nat)
    requires b.topology == Topology.PIPELINE && LostAtMost(b, k) && P.Enabled(b, P.Handle(w, row, call))
    ensures LostAtMost(P.Apply(b, P.Handle(w, row, call)), k)
    ensures P.Apply(b, P.Handle(w, row, call)).topology == Topology.PIPELINE
  {
    match P.Decide(b.workers[w].msg.deaths, row)
    case DropExhausted => SettleCounts(b, w, P.RetriesExhausted, k);
    case DropUnreadable => SettleCounts(b, w, P.Unreadable, k);
    case DropNoRow => SettleCounts(b, w, P.NoRow, k);
    case Requeue => NackCounts(b, w, k);
    case Call =>
  }

  lemma OthersCount(b: P.State, step: P.Step, k: nat)
    requires b.topology == Topology.PIPELINE && LostAtMost(b, k) && P.Enabled(b, step) && !step.Lose?
    ensures LostAtMost(P.Apply(b, step), k) && P.Apply(b, step).topology == Topology.PIPELINE
  {
    P.Timing(b);
    match step
    case Publish(exec, wf) => P.PublishIs(b, exec, wf);
    case Handle(w, row, call) => HandleCounts(b, w, row, call, k);
    case Reply(w, ok) => if ok { SettleCounts(b, w, P.Replied, k); } else { NackCounts(b, w, k); }
    case Wake => P.WokenIs(b);
    case _ =>
  }

  // The broker's part of a step, if it has one.
  function BrokerPart(s: State, step: Step): (b: Option<P.Step>)
    requires Enabled(s, step)
    ensures b.Some? ==> P.Enabled(s.broker, b.value)
    ensures Apply(s, step).broker == if b.Some? then P.Apply(s.broker, b.value) else s.broker
  {
    match step
    case Trigger(wf, sent) => if sent then Some(P.Publish(s.nextExec, wf)) else None
    case Take(w, dbError, _, _) => Some(TakeStep(s, w, dbError))
    case Perform(_) => None
    case Refuse(_) => None
    case Answer(w, ok) => Some(P.Reply(w, ok))
    case Pass(b) => Some(b)
  }

  lemma StepCounts(s: State, step: Step, k: nat)
    requires s.broker.topology == Topology.PIPELINE && LostAtMost(s.broker, k) && Enabled(s, step)
    ensures LostAtMost(Apply(s, step).broker, k + Loss(step)) && Apply(s, step).broker.topology == Topology.PIPELINE
  {
    var part := BrokerPart(s, step);
    if part.Some? {
      if part.value.Lose? { LoseCounts(s.broker, part.value.w, part.value.pos, k); }
      else { OthersCount(s.broker, part.value, k); }
    }
  }

  lemma {:induction false} TraceCounts(s: State, trace: seq<Step>, k: nat)
    requires s.broker.topology == Topology.PIPELINE && LostAtMost(s.broker, k) && Legal(s, trace)
    ensures LostAtMost(After(s, trace).broker, k + Losses(trace))
    decreases |trace|
  {
    if trace != [] {
      StepCounts(s, trace[0], k);
      TraceCounts(Apply(s, trace[0]), trace[1..], k + Loss(trace[0]));
    }
  }

  lemma InitLost(n: nat)
    ensures LostAtMost(Init(n).broker, 0) && Init(n).broker.topology == Topology.PIPELINE
  {
  }

  ghost predicate CallsWithin(s: State, p: PF.Place) {
    Present(s.broker, p) ==>
      CallsFor(s.calls, MessageAt(s.broker, p).id) <= Topology.MAX_RETRIES + MessageAt(s.broker, p).losses
  }

  lemma CallsIn(s: State, id: nat, k: nat)
    requires Inv(s, Nobody) && LostAtMost(s.broker, k)
    ensures CallsFor(s.calls, id) <= 3 + k
  {
    if id < |s.broker.ledger| {
      var p := PF.SomePlace(s.broker, id);
      RunsAreCalls(s, p);
      RunsBounded(s.broker, p);
    } else {
      forall c | 0 <= c < |s.calls| ensures s.calls[c].msg != id { assert CallOk(s.calls[c], s.broker.ledger); }
      NoCalls(s.calls, id);
    }
  }

  lemma AllWithin(s: State)
    requires Inv(s, Nobody)
    ensures forall p :: CallsWithin(s, p)
  {
    forall p ensures CallsWithin(s, p) {
      if Present(s.broker, p) {
        RunsAreCalls(s, p);
        RunsBounded(s.broker, p);
      }
    }
  }

  // The engine is called for one message, hence for one execution, at most three times plus once for each time
  // that message was redelivered after a connection loss.
  lemma AttemptsBounded(n: nat, trace: seq<Step>)
    requires Legal(Init(n), trace)
    ensures forall p :: CallsWithin(After(Init(n), trace), p)
  {
    Reached(n, trace, Nobody);
    AllWithin(After(Init(n), trace));
  }

  // No message is redelivered more often than connections were lost.
  lemma AttemptsInRun(n: nat, trace: seq<Step>, id: nat)
    requires Legal(Init(n), trace)
    ensures CallsFor(After(Init(n), trace).calls, id) <= 3 + Losses(trace)
  {
    Reached(n, trace, Nobody);
    InitLost(n);
    TraceCounts(Init(n), trace, 0);
    CallsIn(After(Init(n), trace), id, Losses(trace));
  }

  // ----- at most once -----

  function RowsOf(logs: seq<Tagged>, e: nat): seq<StepLog> {
    if logs == [] then [] else (if logs[0].log.execId == e then [logs[0].log] else []) + RowsOf(logs[1..], e)
  }

  lemma {:induction false} RowsOfOneCall(logs: seq<Tagged>, e: nat, c: nat)
    requires forall k :: 0 <= k < |logs| ==> (logs[k].log.execId == e <==> logs[k].call == c)
    ensures RowsOf(logs, e) == LogsOfCall(logs, c)
  {
    if logs != [] { RowsOfOneCall(logs[1..], e, c); }
  }

  lemma {:induction false} NoRowsOf(logs: seq<Tagged>, e: nat)
    requires forall k :: 0 <= k < |logs| ==> logs[k].log.execId != e
    ensures RowsOf(logs, e) == []
  {
    if logs != [] { NoRowsOf(logs[1..], e); }
  }

  // All stored rows of a watched message's execution are those of its live call.
  lemma RowsOfLive(s: State, c: nat, watch: Watch)
    requires Inv(s, watch) && watch.Only? && c < |s.calls| && LiveFor(s.calls[c], watch.id)
    ensures RowsOf(s.logs, s.calls[c].exec) == LogsOfCall(s.logs, c) == LogsOf(ScriptOf(s.calls[c])[..s.calls[c].pc])
  {
    LiveIsAlone(s, c, watch);
    forall k | 0 <= k < |s.logs| ensures s.logs[k].log.execId == s.calls[c].exec <==> s.logs[k].call == c {
      assert CallOk(s.calls[s.logs[k].call], s.broker.ledger);
    }
    RowsOfOneCall(s.logs, s.calls[c].exec, c);
  }

  // The step rows of execution e are those of the part of one attempt's run performed so far, or there are none.
  ghost predicate OneAttempt(s: State, e: nat) {
    || RowsOf(s.logs, e) == []
    || exists c :: && 0 <= c < |s.calls| && s.calls[c].exec == e && Open(s.calls[c])
                   && s.calls[c].pc <= |ScriptOf(s.calls[c])|
                   && RowsOf(s.logs, e) == LogsOf(ScriptOf(s.calls[c])[..s.calls[c].pc])
  }

  lemma OnceIn(s: State, watch: Watch)
    requires Inv(s, watch) && watch.Only? && watch.id < |s.broker.ledger|
    ensures OneAttempt(s, s.broker.ledger[watch.id].exec)
  {
    var e := s.broker.ledger[watch.id].exec;
    if k :| 0 <= k < |s.logs| && s.logs[k].log.execId == e {
      var c := s.logs[k].call;
      assert CallOk(s.calls[c], s.broker.ledger);
      RowsOfLive(s, c, watch);
    } else {
      NoRowsOf(s.logs, e);
    }
  }

  // Whatever happens to all other messages: as long as no worker gives up on a live call for message id that it
  // can still be dispatched for, all step rows of its execution come from one attempt.
  lemma AtMostOnce(n: nat, trace: seq<Step>, id: nat)
    requires Legal(Init(n), trace) && AllHonest(Init(n), trace, Only(id, false))
    requires id < |After(Init(n), trace).broker.ledger|
    ensures OneAttempt(After(Init(n), trace), After(Init(n), trace).broker.ledger[id].exec)
  {
    Reached(n, trace, Only(id, false));
    OnceIn(After(Init(n), trace), Only(id, false));
  }

  // ----- the life of a row -----

  predicate Onward(before: string, after: string) {
    || after == before
    || (before == "pending" && after == "running")
    || (before == "running" && Terminal(after))
  }

  // A run sets the row to running first and to its verdict second to last, and touches it nowhere else.
  lemma ScriptStatus(a: Attempt)
    requires Open(a) && a.pc <= |ScriptOf(a)|
    ensures var n := |ScriptOf(a)|;
            var verdict := Execute(EngineFactory, a.exec, a.parsed, a.obs).status;
            && n >= 3 && Terminal(verdict) && Progressed(a) == F.StatusAt(n, a.pc, verdict)
  {
    F.ScriptEndsOnce(a.exec, a.parsed, a.obs);
  }

  lemma ProgressIsOnward(a: Attempt)
    requires Open(a) && a.pc < |ScriptOf(a)|
    ensures Onward(Progressed(a), Progressed(Advanced(a)))
  {
    ScriptStatus(a);
    ScriptStatus(Advanced(a));
    assert ScriptOf(Advanced(a)) == ScriptOf(a);
  }

  function StatusOf(s: State, e: nat): string {
    if e in s.rows then s.rows[e].status else "pending"
  }

  lemma PerformOnward(s: State, c: nat, watch: Watch)
    requires Inv(s, watch) && watch.Only? && watch.id < |s.broker.ledger| && Enabled(s, Perform(c))
    ensures var e := s.broker.ledger[watch.id].exec;
            Onward(StatusOf(s, e), StatusOf(Apply(s, Perform(c)), e))
  {
    Stores(s, c, watch);
    assert CallOk(s.calls[c], s.broker.ledger);
    if s.calls[c].msg == watch.id {
      assert LiveFor(s.calls[c], watch.id);
      ProgressIsOnward(s.calls[c]);
      ProgressedStep(s.calls[c]);
    }
  }

  lemma BrokerOnly(s: State, step: Step)
    requires Enabled(s, step) && !step.Perform? && !step.Trigger?
    ensures Apply(s, step).rows == s.rows
  {
  }

  // The row of a watched message only moves from pending to running to a verdict.
  lemma StatusMoves(s: State, step: Step, watch: Watch)
    requires Inv(s, watch) && watch.Only? && watch.id < |s.broker.ledger| && Enabled(s, step)
    ensures var e := s.broker.ledger[watch.id].exec;
            Onward(StatusOf(s, e), StatusOf(Apply(s, step), e))
  {
    match step
    case Perform(c) => PerformOnward(s, c, watch);
    case Trigger(wf, sent) =>
    case _ => BrokerOnly(s, step);
  }

  function Rank(status: string): nat {
    if status == "pending" then 0 else if status == "running" then 1 else 2
  }

  lemma OnwardRank(before: string, after: string)
    requires Onward(before, after)
    ensures Rank(before) <= Rank(after) && (Terminal(before) ==> after == before)
  {
  }

  lemma StepRank(s: State, step: Step, watch: Watch)
    requires Inv(s, watch) && watch.Only? && watch.id < |s.broker.ledger| && Enabled(s, step)
    ensures var e := s.broker.ledger[watch.id].exec;
            && Rank(StatusOf(s, e)) <= Rank(StatusOf(Apply(s, step), e))
            && (Terminal(StatusOf(s, e)) ==> StatusOf(Apply(s, step), e) == StatusOf(s, e))
  {
    StatusMoves(s, step, watch);
    OnwardRank(StatusOf(s, s.broker.ledger[watch.id].exec), StatusOf(Apply(s, step), s.broker.ledger[watch.id].exec));
  }

  lemma LedgerExtends(s: State, step: Step)
    requires s.broker.topology == Topology.PIPELINE && Enabled(s, step)
    ensures s.broker.ledger <= Apply(s, step).broker.ledger
  {
    var part := BrokerPart(s, step);
    if part.Some? {
      if part.value.Publish? { P.PublishIs(s.broker, part.value.exec, part.value.wf); }
      else { LedgerStays(s.broker, part.value); }
    }
  }

  // So over a whole run that is honest towards that message it never moves back, and a verdict is never
  // overwritten.
  lemma {:induction false} VerdictStays(s: State, trace: seq<Step>, watch: Watch)
    requires Inv(s, watch) && watch.Only? && watch.id < |s.broker.ledger| && Legal(s, trace)
    requires AllHonest(s, trace, watch)
    ensures var e := s.broker.ledger[watch.id].exec;
            && Rank(StatusOf(s, e)) <= Rank(StatusOf(After(s, trace), e))
            && (Terminal(StatusOf(s, e)) ==> StatusOf(After(s, trace), e) == StatusOf(s, e))
    decreases |trace|
  {
    if trace != [] {
      StepRank(s, trace[0], watch);
      StepKeepsInv(s, trace[0], watch);
      LedgerExtends(s, trace[0]);
      VerdictStays(Apply(s, trace[0]), trace[1..], watch);
    }
  }

  // ----- settled messages -----

  // The row of a settled message in a run strictly honest towards it. A reply settles it with the verdict of its one
  // complete attempt, whose rows are all there; used-up retries leave the row pending, with no step rows.
  ghost predicate SettledRow(s: State, d: P.Done) {
    var e := d.msg.exec;
    if d.how.Replied? then
      exists c :: && 0 <= c < |s.calls| && s.calls[c].exec == e && Complete(s.calls[c])
                  && RowsOf(s.logs, e) == LogsOf(ScriptOf(s.calls[c]))
                  && StatusOf(s, e) == Execute(EngineFactory, e, s.calls[c].parsed, s.calls[c].obs).status
    else RowsOf(s.logs, e) == [] && StatusOf(s, e) == "pending"
  }

  lemma CompleteRow(s: State, c: nat, watch: Watch)
    requires Inv(s, watch) && watch.Only? && c < |s.calls| && Complete(s.calls[c]) && s.calls[c].msg == watch.id
    ensures RowsOf(s.logs, s.calls[c].exec) == LogsOf(ScriptOf(s.calls[c]))
    ensures var a := s.calls[c];
            StatusOf(s, a.exec) == Execute(EngineFactory, a.exec, a.parsed, a.obs).status
    ensures Terminal(StatusOf(s, s.calls[c].exec))
  {
    assert CallOk(s.calls[c], s.broker.ledger) && LiveFor(s.calls[c], watch.id);
    RowsOfLive(s, c, watch);
    ScriptStatus(s.calls[c]);
    assert ScriptOf(s.calls[c])[..s.calls[c].pc] == ScriptOf(s.calls[c]);
  }

  lemma RepliedRow(s: State, d: P.Done, watch: Watch)
    requires Inv(s, watch) && Watches(watch, d.msg.id) && d.how.Replied?
    requires P.Listed(d.msg, s.broker.ledger) && Answered(s.calls, d.msg.id)
    ensures SettledRow(s, d) && Terminal(StatusOf(s, d.msg.exec))
  {
    var c :| 0 <= c < |s.calls| && s.calls[c].msg == d.msg.id && Complete(s.calls[c]);
    assert CallOk(s.calls[c], s.broker.ledger);
    CompleteRow(s, c, watch);
  }

  lemma NoLiveRows(s: State, id: nat)
    requires Inv(s, Nobody) && id < |s.broker.ledger| && Live(s.calls, id) == 0
    ensures RowsOf(s.logs, s.broker.ledger[id].exec) == []
  {
    var e := s.broker.ledger[id].exec;
    forall k | 0 <= k < |s.logs| ensures s.logs[k].log.execId != e {
      var a := s.calls[s.logs[k].call];
      assert CallOk(a, s.broker.ledger);
      if a.exec == e { LiveAt(s.calls, s.logs[k].call, s.logs[k].call, id); }
    }
    NoRowsOf(s.logs, e);
  }

  lemma Unwatched(s: State, watch: Watch)
    requires Inv(s, watch)
    ensures Inv(s, Nobody)
  {
    forall m, stage | Tally(s.calls, watch, m, stage) ensures Tally(s.calls, Nobody, m, stage) {}
  }

  lemma ExhaustedRow(s: State, d: P.Done, watch: Watch)
    requires Inv(s, watch) && Watches(watch, d.msg.id) && watch.strict && !d.how.Replied?
    requires P.Listed(d.msg, s.broker.ledger) && Tally(s.calls, watch, d.msg, Settled(d.how))
    ensures SettledRow(s, d) && StatusOf(s, d.msg.exec) == "pending"
  {
    Unwatched(s, watch);
    NoLiveRows(s, d.msg.id);
  }

  ghost predicate SettledByCount(s: State, d: P.Done) {
    && SettledRow(s, d)
    && (Terminal(StatusOf(s, d.msg.exec)) <==> Topology.DeathCount(d.msg.deaths) < Topology.MAX_RETRIES)
    && (!Terminal(StatusOf(s, d.msg.exec)) <==> StatusOf(s, d.msg.exec) == "pending")
  }

  lemma SettledIn(s: State, i: nat, watch: Watch)
    requires Inv(s, watch) && i < |s.broker.done| && Watches(watch, s.broker.done[i].msg.id) && watch.strict
    ensures SettledByCount(s, s.broker.done[i])
  {
    var d := s.broker.done[i];
    PresentListed(s.broker, PF.Finished(i));
    assert P.DoneOk(d);
    Topology.OneTrip(d.msg.nacks);
    assert Tally(s.calls, watch, d.msg, Settled(d.how));
    if d.how.Replied? { RepliedRow(s, d, watch); } else { ExhaustedRow(s, d, watch); }
  }

  // Of a settled message, "every execution reaches success or failed" holds exactly when it was settled below the retry
  // limit; one dropped at the limit leaves its row pending.
  lemma SettledExactly(n: nat, trace: seq<Step>, i: nat)
    requires Legal(Init(n), trace) && i < |After(Init(n), trace).broker.done|
    requires AllHonest(Init(n), trace, Only(After(Init(n), trace).broker.done[i].msg.id, true))
    ensures SettledByCount(After(Init(n), trace), After(Init(n), trace).broker.done[i])
  {
    var watch := Only(After(Init(n), trace).broker.done[i].msg.id, true);
    Reached(n, trace, watch);
    SettledIn(After(Init(n), trace), i, watch);
  }
}
