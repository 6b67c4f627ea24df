/** What the retry protocol guarantees in every reachable state and over every run. */
module ProtocolFacts {
  import opened Topology
  import opened Protocol

  // ----- every message is in exactly one place -----

  datatype Place = InRun(i: nat) | InRetry(i: nat) | AtWorker(i: nat) | Finished(i: nat)

  predicate At(s: State, p: Place, id: nat) {
    match p
    case InRun(i) => i < |s.runQ| && s.runQ[i].id == id
    case InRetry(i) => i < |s.retryQ| && s.retryQ[i].msg.id == id
    case AtWorker(i) => i < |s.workers| && Holding(s.workers[i]) && s.workers[i].msg.id == id
    case Finished(i) => i < |s.done| && s.done[i].msg.id == id
  }

  lemma {:induction false} OccAt(ids: seq<nat>, i: nat, j: nat, id: nat)
    requires i < |ids| && ids[i] == id
    ensures Occ(ids, id) >= 1
    ensures j < |ids| && ids[j] == id && i != j ==> Occ(ids, id) >= 2
  {
    var low := if j < i && j < |ids| && ids[j] == id then j else i;
    var high := if low == i then j else i;
    if low > 0 {
      OccAt(ids[1..], i - 1, if j > 0 then j - 1 else |ids|, id);
    } else if j < |ids| && ids[j] == id && i != j {
      OccAt(ids[1..], high - 1, high - 1, id);
    }
  }

  lemma {:induction false} HeldAt(ws: seq<Slot>, i: nat, j: nat, id: nat)
    requires i < |ws| && Holds(ws[i], id) == 1
    ensures Held(ws, id) >= 1
    ensures j < |ws| && Holds(ws[j], id) == 1 && i != j ==> Held(ws, id) >= 2
  {
    var low := if j < i && j < |ws| && Holds(ws[j], id) == 1 then j else i;
    var high := if low == i then j else i;
    if low > 0 {
      HeldAt(ws[1..], i - 1, if j > 0 then j - 1 else |ws|, id);
    } else if j < |ws| && Holds(ws[j], id) == 1 && i != j {
      HeldAt(ws[1..], high - 1, high - 1, id);
    }
  }

  lemma {:induction false} OccFind(ids: seq<nat>, id: nat) returns (i: nat)
    requires Occ(ids, id) >= 1
    ensures i < |ids| && ids[i] == id
  {
    if ids[0] == id { i := 0; } else { i := OccFind(ids[1..], id); i := i + 1; }
  }

  lemma {:induction false} HeldFind(ws: seq<Slot>, id: nat) returns (i: nat)
    requires Held(ws, id) >= 1
    ensures i < |ws| && Holds(ws[i], id) == 1
  {
    if Holds(ws[0], id) == 1 { i := 0; } else { i := HeldFind(ws[1..], id); i := i + 1; }
  }

  function Share(s: State, p: Place, id: nat): nat {
    match p
    case InRun(_) => Occ(RunIds(s.runQ), id)
    case InRetry(_) => Occ(ParkedIds(s.retryQ), id)
    case AtWorker(_) => Held(s.workers, id)
    case Finished(_) => Occ(DoneIds(s.done), id)
  }

  predicate SameKind(p: Place, q: Place) {
    (p.InRun? && q.InRun?) || (p.InRetry? && q.InRetry?) || (p.AtWorker? && q.AtWorker?) || (p.Finished? && q.Finished?)
  }

  lemma ShareOf(s: State, p: Place, q: Place, id: nat)
    requires At(s, p, id)
    ensures Share(s, p, id) >= 1
    ensures At(s, q, id) && SameKind(p, q) && p != q ==> Share(s, p, id) >= 2
  {
    match p
    case InRun(i) => OccAt(RunIds(s.runQ), i, q.i, id);
    case InRetry(i) => OccAt(ParkedIds(s.retryQ), i, q.i, id);
    case AtWorker(i) => HeldAt(s.workers, i, q.i, id);
    case Finished(i) => OccAt(DoneIds(s.done), i, q.i, id);
  }

  lemma AtMostOnePlace(s: State, p: Place, q: Place, id: nat)
    requires Inv(s) && At(s, p, id) && At(s, q, id)
    ensures p == q && id < |s.ledger|
  {
    ShareOf(s, p, q, id);
    ShareOf(s, q, p, id);
    assert Census(s, id) <= 1;
  }

  lemma SomePlace(s: State, id: nat) returns (p: Place)
    requires Inv(s) && id < |s.ledger|
    ensures At(s, p, id)
  {
    assert Census(s, id) == 1;
    if Occ(RunIds(s.runQ), id) >= 1 {
      var i := OccFind(RunIds(s.runQ), id);
      p := InRun(i);
    } else if Occ(ParkedIds(s.retryQ), id) >= 1 {
      var i := OccFind(ParkedIds(s.retryQ), id);
      p := InRetry(i);
    } else if Held(s.workers, id) >= 1 {
      var i := HeldFind(s.workers, id);
      p := AtWorker(i);
    } else {
      var i := OccFind(DoneIds(s.done), id);
      p := Finished(i);
    }
  }

  // In every reachable state an accepted message is in exactly one place: one position of one queue, one
  // worker's hands, or settled. Nothing is lost, nothing is held twice, nothing appears from nowhere.
  lemma MessageConservation(n: nat, trace: seq<Step>, id: nat)
    requires Legal(Init(n), trace)
    ensures var s := After(Init(n), trace);
            && (id < |s.ledger| <==> exists p :: At(s, p, id))
            && forall p, q :: At(s, p, id) && At(s, q, id) ==> p == q
  {
    InitInv(n);
    ReachableInv(Init(n), trace);
    var s := After(Init(n), trace);
    if id < |s.ledger| { var p := SomePlace(s, id); }
    forall p, q | At(s, p, id) && At(s, q, id) ensures p == q && id < |s.ledger| {
      AtMostOnePlace(s, p, q, id);
    }
  }

  // ----- the retry count is exact, and backs off -----

  // Whenever a worker holds a message, the entry it reads counts the message's rejections exactly; it calls
  // the engine only below the limit, and each counted rejection has cost ten seconds since publication.
  lemma RetryCountExact(n: nat, trace: seq<Step>, w: nat)
    requires Legal(Init(n), trace)
    requires w < |After(Init(n), trace).workers| && Holding(After(Init(n), trace).workers[w])
    ensures var s := After(Init(n), trace);
            var m := s.workers[w].msg;
            && DeathCount(m.deaths) == m.nacks <= MAX_RETRIES
            && (s.workers[w].Calling? ==> m.nacks < MAX_RETRIES)
            && m.born + 10000 * DeathCount(m.deaths) <= s.now
            && (forall row :: Decide(m.deaths, row) == DropExhausted <==> m.nacks == MAX_RETRIES)
  {
    InitInv(n);
    ReachableInv(Init(n), trace);
    var s := After(Init(n), trace);
    assert SlotOk(s.workers[w], s.now);
    CountIsNacks(s.workers[w].msg, s.now);
  }

  // Engine calls per settled message: at most the retry limit plus its connection-loss redeliveries; the
  // limit is the reason for settling exactly when all its rejections were used up.
  lemma CallsBounded(n: nat, trace: seq<Step>, i: nat)
    requires Legal(Init(n), trace) && i < |After(Init(n), trace).done|
    ensures var d := After(Init(n), trace).done[i];
            && d.msg.runs <= MAX_RETRIES + d.msg.losses
            && (d.how == RetriesExhausted <==> DeathCount(d.msg.deaths) >= MAX_RETRIES)
  {
    InitInv(n);
    ReachableInv(Init(n), trace);
    assert DoneOk(After(Init(n), trace).done[i]);
    OneTrip(After(Init(n), trace).done[i].msg.nacks);
  }

  // Messages leave the retry queue in the order they were rejected.
  lemma RetryQueueIsFifo(n: nat, trace: seq<Step>)
    requires Legal(Init(n), trace)
    ensures After(Init(n), trace).wakeOrder <= After(Init(n), trace).nackOrder
  {
    InitInv(n);
    ReachableInv(Init(n), trace);
  }

  // ----- draining -----

  predicate External(step: Step) {
    step.Publish? || step.Lose?
  }

  predicate Work(step: Step) {
    step.Deliver? || step.Handle? || step.Reply? || step.Wake?
  }

  // Work still ahead of a message: four steps for each rejection left, and the steps to its next rejection.
  function Left(nacks: nat): nat {
    if nacks < MAX_RETRIES then 4 * (MAX_RETRIES - nacks) else 0
  }

  function RunWork(q: seq<Message>): nat {
    if q == [] then 0 else Left(q[0].nacks) + 3 + RunWork(q[1..])
  }

  function ParkedWork(q: seq<Parked>): nat {
    if q == [] then 0 else Left(q[0].msg.nacks) + 4 + ParkedWork(q[1..])
  }

  function SlotWork(x: Slot): nat {
    match x
    case Got(m) => Left(m.nacks) + 2
    case Calling(m, _) => Left(m.nacks) + 1
    case _ => 0
  }

  function HeldWork(ws: seq<Slot>): nat {
    if ws == [] then 0 else SlotWork(ws[0]) + HeldWork(ws[1..])
  }

  function Measure(s: State): nat {
    RunWork(s.runQ) + ParkedWork(s.retryQ) + HeldWork(s.workers)
  }

  lemma {:induction false} RunWorkSnoc(q: seq<Message>, m: Message)
    ensures RunWork(q + [m]) == RunWork(q) + Left(m.nacks) + 3
  {
    if q == [] { assert ([] + [m])[1..] == []; }
    else {
      assert (q + [m])[1..] == q[1..] + [m];
      RunWorkSnoc(q[1..], m);
    }
  }

  lemma {:induction false} ParkedWorkSnoc(q: seq<Parked>, p: Parked)
    ensures ParkedWork(q + [p]) == ParkedWork(q) + Left(p.msg.nacks) + 4
  {
    if q == [] { assert ([] + [p])[1..] == []; }
    else {
      assert (q + [p])[1..] == q[1..] + [p];
      ParkedWorkSnoc(q[1..], p);
    }
  }

  lemma {:induction false} HeldWorkSwap(ws: seq<Slot>, w: nat, x: Slot)
    requires w < |ws|
    ensures HeldWork(ws[w := x]) + SlotWork(ws[w]) == HeldWork(ws) + SlotWork(x)
  {
    var vs := ws[w := x];
    if w == 0 {
      assert vs[1..] == ws[1..];
    } else {
      assert vs[1..] == ws[1..][w - 1 := x];
      HeldWorkSwap(ws[1..], w - 1, x);
    }
  }

  lemma SettleWork(s: State, w: nat, how: How)
    requires w < |s.workers| && Holding(s.workers[w])
    ensures Measure(Settle(s, w, how)) < Measure(s)
  {
    HeldWorkSwap(s.workers, w, Idle);
  }

  lemma NackWork(s: State, w: nat)
    requires s.topology == PIPELINE && w < |s.workers| && Holding(s.workers[w]) && s.workers[w].msg.nacks < MAX_RETRIES
    ensures Measure(Nack(s, w)) < Measure(s)
  {
    NackIs(s, w);
    HeldWorkSwap(s.workers, w, Idle);
    ParkedWorkSnoc(s.retryQ, Parked(Rejected(s.workers[w].msg), s.now));
  }

  lemma HandleWork(s: State, w: nat, row: Lookup, call: nat)
    requires Inv(s) && Enabled(s, Handle(w, row, call))
    ensures Measure(Apply(s, Handle(w, row, call))) < Measure(s)
  {
    var m := s.workers[w].msg;
    assert SlotOk(s.workers[w], s.now);
    CountIsNacks(m, s.now);
    match Decide(m.deaths, row)
    case DropExhausted => SettleWork(s, w, RetriesExhausted);
    case DropUnreadable => SettleWork(s, w, Unreadable);
    case DropNoRow => SettleWork(s, w, NoRow);
    case Requeue => NackWork(s, w);
    case Call => HeldWorkSwap(s.workers, w, Calling(m.(runs := m.runs + 1), call));
  }

  // Every delivery, decision, reply and expiry uses up work; time and restarts leave it alone.
  lemma WorkDecreases(s: State, step: Step)
    requires Inv(s) && Enabled(s, step) && !External(step)
    ensures Work(step) ==> Measure(Apply(s, step)) < Measure(s)
    ensures !Work(step) ==> Measure(Apply(s, step)) == Measure(s)
  {
    Timing(s);
    match step
    case Deliver(w) => HeldWorkSwap(s.workers, w, Got(s.runQ[0]));
    case Handle(w, row, call) => HandleWork(s, w, row, call);
    case Reply(w, ok) =>
      assert SlotOk(s.workers[w], s.now);
      if ok { SettleWork(s, w, Replied); } else { NackWork(s, w); }
    case Wake =>
      WokenIs(s);
      RunWorkSnoc(s.runQ, Returned(s.retryQ[0].msg));
    case Restart(w) => HeldWorkSwap(s.workers, w, Idle);
    case Expire =>
    case Tick(d) =>
  }

  function WorkSteps(trace: seq<Step>): nat {
    if trace == [] then 0 else (if Work(trace[0]) then 1 else 0) + WorkSteps(trace[1..])
  }

  // Without new triggers and connection losses a run holds at most Measure(s) protocol steps.
  lemma {:induction false} DrainBound(s: State, trace: seq<Step>)
    requires Inv(s) && Legal(s, trace) && forall k :: 0 <= k < |trace| ==> !External(trace[k])
    ensures WorkSteps(trace) + Measure(After(s, trace)) <= Measure(s)
    decreases |trace|
  {
    if trace != [] {
      var t := Apply(s, trace[0]);
      WorkDecreases(s, trace[0]);
      StepKeepsInv(s, trace[0]);
      assert forall k :: 0 <= k < |trace[1..]| ==> !External(trace[1..][k]);
      DrainBound(t, trace[1..]);
    }
  }

  predicate Drained(s: State) {
    s.runQ == [] && s.retryQ == [] && forall w :: 0 <= w < |s.workers| ==> !Holding(s.workers[w])
  }

  function Later(s: State, d: nat): State {
    Apply(s, Tick(d))
  }

  ghost predicate AtRest(s: State) {
    forall step :: Work(step) ==> !Enabled(s, step)
  }

  // No protocol step is possible, neither now nor after waiting.
  ghost predicate Stuck(s: State) {
    forall d: nat :: AtRest(Later(s, d))
  }

  predicate SomeWorkerUp(s: State) {
    exists w :: 0 <= w < |s.workers| && !s.workers[w].Down?
  }

  // With a live worker, a state that is not drained can make a protocol step after some wait.
  lemma Progress(s: State) returns (d: nat, step: Step)
    requires s.topology == PIPELINE && SomeWorkerUp(s) && !Drained(s)
    ensures Work(step) && Enabled(Later(s, d), step)
    ensures !AtRest(Later(s, d))
  {
    d := 0;
    if w :| 0 <= w < |s.workers| && Holding(s.workers[w]) {
      step := if s.workers[w].Got? then Handle(w, Found, 0) else Reply(w, true);
    } else if s.runQ != [] {
      var w0 :| 0 <= w0 < |s.workers| && !s.workers[w0].Down?;
      assert s.workers[w0].Idle?;
      step := Deliver(w0);
    } else {
      d, step := s.retryQ[0].at + TTL, Wake;
      Timing(Later(s, d));
    }
    assert Work(step) && Enabled(Later(s, d), step);
  }

  lemma StuckIsDrained(s: State)
    requires s.topology == PIPELINE && Stuck(s) && SomeWorkerUp(s)
    ensures Drained(s)
  {
    if !Drained(s) {
      var _, _ := Progress(s);
    }
  }

  lemma {:induction false} UpStaysUp(s: State, trace: seq<Step>)
    requires Legal(s, trace) && SomeWorkerUp(s) && forall k :: 0 <= k < |trace| ==> !External(trace[k])
    ensures SomeWorkerUp(After(s, trace))
    decreases |trace|
  {
    if trace != [] {
      var w0 :| 0 <= w0 < |s.workers| && !s.workers[w0].Down?;
      UpStep(s, trace[0], w0);
      assert forall k :: 0 <= k < |trace[1..]| ==> !External(trace[1..][k]);
      UpStaysUp(Apply(s, trace[0]), trace[1..]);
    }
  }

  lemma UpStep(s: State, step: Step, w0: nat)
    requires Enabled(s, step) && !External(step) && w0 < |s.workers| && !s.workers[w0].Down?
    ensures w0 < |Apply(s, step).workers| && !Apply(s, step).workers[w0].Down?
  {
  }

  // Once triggers and connection losses stop, every run is finite in protocol steps, and a run that has come
  // to rest has emptied both queues and every worker's hands.
  lemma DrainTerminates(s: State, trace: seq<Step>)
    requires Inv(s) && SomeWorkerUp(s) && Legal(s, trace) && forall k :: 0 <= k < |trace| ==> !External(trace[k])
    ensures WorkSteps(trace) <= Measure(s)
    ensures Stuck(After(s, trace)) ==> Drained(After(s, trace))
  {
    DrainBound(s, trace);
    UpStaysUp(s, trace);
    ReachableInv(s, trace);
    if Stuck(After(s, trace)) { StuckIsDrained(After(s, trace)); }
  }

  // ----- the declared time to live -----

  // On a broker that was new before the declarations, whatever waits in the retry queue: its head can expire exactly
  // from ten seconds after its rejection on, nothing else expires, and it goes to the end of the run queue alone.
  lemma HeadExpiresExactly(s: State, d: nat)
    requires s.topology == WithPipeline(EMPTY) && s.retryQ != []
    ensures Enabled(Later(s, d), Wake) <==> s.retryQ[0].at + 10000 <= s.now + d
    ensures !Enabled(Later(s, d), Expire)
    ensures Enabled(Later(s, d), Wake) ==>
              var t := Apply(Later(s, d), Wake);
              && t.retryQ == s.retryQ[1..] && |t.runQ| == |s.runQ| + 1 && t.runQ[..|s.runQ|] == s.runQ
              && t.runQ[|s.runQ|].id == s.retryQ[0].msg.id
  {
    Timing(Later(s, d));
    WokenIs(Later(s, d));
  }

  // A message rejected while nothing waits comes back exactly 10000 ms after its rejection at the earliest.
  lemma RejectedExpiresExactly(s: State, w: nat, d: nat)
    requires s.topology == WithPipeline(EMPTY) && Enabled(s, Reply(w, false)) && s.retryQ == []
    ensures var t := Apply(s, Reply(w, false));
            && |t.retryQ| == 1 && t.retryQ[0].msg.id == s.workers[w].msg.id && t.runQ == s.runQ
            && (Enabled(Later(t, d), Wake) <==> 10000 <= d)
  {
    NackIs(s, w);
    HeadExpiresExactly(Apply(s, Reply(w, false)), d);
  }
}
