/** The retry protocol as a state machine: a run queue, a retry queue with a time to live, and any
    number of workers that each hold at most one unacknowledged message. */
module Protocol {
  import opened Topology

  // exec and wf are the body; deaths is the x-death header. born, nacks, losses and runs record the
  // message's history: publication time, rejections, connection-loss redeliveries, engine calls.
  datatype Message = Message(id: nat, exec: nat, wf: nat, deaths: seq<Death>, born: nat, nacks: nat, losses: nat,
                             runs: nat)

  datatype Parked = Parked(msg: Message, at: nat)

  // A consumer goroutine: gone after a connection loss, waiting, holding a delivery, or waiting for the
  // engine's reply to call number `call`.
  datatype Slot = Down | Idle | Got(msg: Message) | Calling(msg: Message, call: nat)

  datatype How = Replied | RetriesExhausted | Unreadable | NoRow
  datatype Done = Done(msg: Message, how: How)
  datatype Accepted = Accepted(exec: nat, wf: nat, born: nat)

  datatype State = State(topology: Topology, now: nat, runQ: seq<Message>, retryQ: seq<Parked>, workers: seq<Slot>,
                         done: seq<Done>, ledger: seq<Accepted>, nackOrder: seq<nat>, wakeOrder: seq<nat>)

  function Init(workers: nat): State {
    State(PIPELINE, 0, [], [], seq(workers, _ => Idle), [], [], [], [])
  }

  // What a delivery's body and the row lookup come to.
  datatype Lookup = BadBody | Found | NotFound | DbError

  datatype Decision = DropExhausted | DropUnreadable | DropNoRow | Requeue | Call

  // The worker's choice before any engine call.
  function Decide(deaths: seq<Death>, row: Lookup): Decision {
    if DeathCount(deaths) >= MAX_RETRIES then DropExhausted
    else match row
      case BadBody => DropUnreadable
      case NotFound => DropNoRow
      case DbError => Requeue
      case Found => Call
  }

  datatype Step =
    | Publish(exec: nat, wf: nat)
    | Deliver(w: nat)
    | Handle(w: nat, row: Lookup, call: nat)
    | Reply(w: nat, ok: bool)
    | Wake
    | Expire
    | Lose(w: nat, pos: nat)
    | Restart(w: nat)
    | Tick(d: nat)

  predicate Holding(x: Slot) {
    x.Got? || x.Calling?
  }

  // A queue declared with a time to live dead-letters what has waited that long; one without never does.
  predicate Overdue(t: Topology, queue: string, since: nat, now: nat) {
    queue in t.queues && t.queues[queue].ttl.Some? && since + t.queues[queue].ttl.value <= now
  }

  // Wake: the retry queue's head expires. Expire: the run queue's head does, at the earliest its time to live after
  // its publication.
  predicate Enabled(s: State, step: Step) {
    match step
    case Publish(_, _) => true
    case Deliver(w) => w < |s.workers| && s.workers[w].Idle? && s.runQ != []
    case Handle(w, _, _) => w < |s.workers| && s.workers[w].Got?
    case Reply(w, _) => w < |s.workers| && s.workers[w].Calling?
    case Wake => s.retryQ != [] && Overdue(s.topology, RETRY, s.retryQ[0].at, s.now)
    case Expire => s.runQ != [] && Overdue(s.topology, RUN, s.runQ[0].born, s.now)
    case Lose(w, pos) => w < |s.workers| && !s.workers[w].Down? && pos <= |s.runQ|
    case Restart(w) => w < |s.workers| && s.workers[w].Down?
    case Tick(_) => true
  }

  // A message arrives at every queue it is routed to.
  function Arrive(s: State, targets: set<string>, m: Message): State {
    s.(runQ := if RUN in targets then s.runQ + [m] else s.runQ,
       retryQ := if RETRY in targets then s.retryQ + [Parked(m, s.now)] else s.retryQ)
  }

  function Settle(s: State, w: nat, how: How): State
    requires w < |s.workers| && Holding(s.workers[w])
  {
    s.(workers := s.workers[w := Idle], done := s.done + [Done(s.workers[w].msg, how)])
  }

  function Nack(s: State, w: nat): State
    requires w < |s.workers| && Holding(s.workers[w])
  {
    var m := s.workers[w].msg;
    var dead := m.(deaths := Record(m.deaths, RUN, "rejected"), nacks := m.nacks + 1);
    var freed := s.(workers := s.workers[w := Idle], nackOrder := s.nackOrder + [m.id]);
    if RUN in s.topology.queues then Arrive(freed, DeadLetterTargets(s.topology, RUN), dead) else freed
  }

  function Woken(s: State): State
    requires s.retryQ != []
  {
    var m := s.retryQ[0].msg;
    var back := m.(deaths := Record(m.deaths, RETRY, "expired"));
    var left := s.(retryQ := s.retryQ[1..], wakeOrder := s.wakeOrder + [m.id]);
    if RETRY in s.topology.queues then Arrive(left, DeadLetterTargets(s.topology, RETRY), back) else left
  }

  function Apply(s: State, step: Step): State
    requires Enabled(s, step)
  {
    match step
    case Publish(exec, wf) =>
      Arrive(s.(ledger := s.ledger + [Accepted(exec, wf, s.now)]), Route(s.topology, EXCHANGE, KEY),
             Message(|s.ledger|, exec, wf, [], s.now, 0, 0, 0))
    case Deliver(w) => s.(workers := s.workers[w := Got(s.runQ[0])], runQ := s.runQ[1..])
    case Handle(w, row, call) =>
      var m := s.workers[w].msg;
      (match Decide(m.deaths, row)
       case DropExhausted => Settle(s, w, RetriesExhausted)
       case DropUnreadable => Settle(s, w, Unreadable)
       case DropNoRow => Settle(s, w, NoRow)
       case Requeue => Nack(s, w)
       case Call => s.(workers := s.workers[w := Calling(m.(runs := m.runs + 1), call)]))
    case Reply(w, ok) => if ok then Settle(s, w, Replied) else Nack(s, w)
    case Wake => Woken(s)
    case Expire =>
      var dead := s.runQ[0].(deaths := Record(s.runQ[0].deaths, RUN, "expired"));
      Arrive(s.(runQ := s.runQ[1..]), DeadLetterTargets(s.topology, RUN), dead)
    case Lose(w, pos) =>
      if Holding(s.workers[w]) then
        var m := s.workers[w].msg;
        s.(workers := s.workers[w := Down], runQ := s.runQ[..pos] + [m.(losses := m.losses + 1)] + s.runQ[pos..])
      else s.(workers := s.workers[w := Down])
    case Restart(w) => s.(workers := s.workers[w := Idle])
    case Tick(d) => s.(now := s.now + d)
  }

  predicate Legal(s: State, trace: seq<Step>)
    decreases |trace|
  {
    trace == [] || (Enabled(s, trace[0]) && Legal(Apply(s, trace[0]), trace[1..]))
  }

  function After(s: State, trace: seq<Step>): State
    requires Legal(s, trace)
    decreases |trace|
  {
    if trace == [] then s else After(Apply(s, trace[0]), trace[1..])
  }

  lemma {:induction false} Split(s: State, a: seq<Step>, b: seq<Step>)
    requires Legal(s, a + b)
    ensures Legal(s, a) && Legal(After(s, a), b) && After(s, a + b) == After(After(s, a), b)
    decreases |a|
  {
    if a == [] { assert a + b == b; }
    else {
      assert (a + b)[1..] == a[1..] + b;
      Split(Apply(s, a[0]), a[1..], b);
    }
  }

  // ----- what each message carries, place by place -----

  predicate Listed(m: Message, ledger: seq<Accepted>) {
    m.id < |ledger| && ledger[m.id] == Accepted(m.exec, m.wf, m.born)
  }

  // On the run queue or just delivered: the entry in front counts the rejections, and each of them cost
  // one full stay in the retry queue.
  predicate ReadyOk(m: Message, now: nat) {
    m.nacks <= MAX_RETRIES && m.deaths == BackDeaths(m.nacks) && m.runs <= m.nacks + m.losses &&
    m.born + TTL * m.nacks <= now
  }

  predicate CallingOk(m: Message, now: nat) {
    m.nacks < MAX_RETRIES && m.deaths == BackDeaths(m.nacks) && m.runs <= m.nacks + m.losses + 1 &&
    m.born + TTL * m.nacks <= now
  }

  predicate ParkedOk(p: Parked, now: nat) {
    1 <= p.msg.nacks <= MAX_RETRIES && p.msg.deaths == WaitDeaths(p.msg.nacks) &&
    p.msg.runs <= p.msg.nacks + p.msg.losses && p.at <= now && p.msg.born + TTL * (p.msg.nacks - 1) <= p.at
  }

  predicate DoneOk(d: Done) {
    && d.msg.nacks <= MAX_RETRIES && d.msg.deaths == BackDeaths(d.msg.nacks)
    && d.msg.runs <= MAX_RETRIES + d.msg.losses
    && (d.how.RetriesExhausted? <==> d.msg.nacks == MAX_RETRIES)
  }

  predicate SlotOk(x: Slot, now: nat) {
    (x.Got? ==> ReadyOk(x.msg, now)) && (x.Calling? ==> CallingOk(x.msg, now))
  }

  ghost predicate MessagesOk(s: State) {
    && (forall i :: 0 <= i < |s.runQ| ==> ReadyOk(s.runQ[i], s.now))
    && (forall i :: 0 <= i < |s.retryQ| ==> ParkedOk(s.retryQ[i], s.now))
    && (forall w :: 0 <= w < |s.workers| ==> SlotOk(s.workers[w], s.now))
    && (forall i :: 0 <= i < |s.done| ==> DoneOk(s.done[i]))
  }

  ghost predicate AllListed(s: State) {
    && (forall i :: 0 <= i < |s.runQ| ==> Listed(s.runQ[i], s.ledger))
    && (forall i :: 0 <= i < |s.retryQ| ==> Listed(s.retryQ[i].msg, s.ledger))
    && (forall w :: 0 <= w < |s.workers| ==> Holding(s.workers[w]) ==> Listed(s.workers[w].msg, s.ledger))
    && (forall i :: 0 <= i < |s.done| ==> Listed(s.done[i].msg, s.ledger))
  }

  // ----- counting -----

  function RunIds(q: seq<Message>): (r: seq<nat>)
    ensures |r| == |q| && forall i :: 0 <= i < |q| ==> r[i] == q[i].id
  {
    if q == [] then [] else [q[0].id] + RunIds(q[1..])
  }

  function ParkedIds(q: seq<Parked>): (r: seq<nat>)
    ensures |r| == |q| && forall i :: 0 <= i < |q| ==> r[i] == q[i].msg.id
  {
    if q == [] then [] else [q[0].msg.id] + ParkedIds(q[1..])
  }

  function DoneIds(q: seq<Done>): (r: seq<nat>)
    ensures |r| == |q| && forall i :: 0 <= i < |q| ==> r[i] == q[i].msg.id
  {
    if q == [] then [] else [q[0].msg.id] + DoneIds(q[1..])
  }

  function Occ(ids: seq<nat>, id: nat): nat {
    if ids == [] then 0 else (if ids[0] == id then 1 else 0) + Occ(ids[1..], id)
  }

  function Holds(x: Slot, id: nat): nat {
    if Holding(x) && x.msg.id == id then 1 else 0
  }

  function Held(ws: seq<Slot>, id: nat): nat {
    if ws == [] then 0 else Holds(ws[0], id) + Held(ws[1..], id)
  }

  // How often message id occurs in all the places a message can be.
  function Census(s: State, id: nat): nat {
    Occ(RunIds(s.runQ), id) + Occ(ParkedIds(s.retryQ), id) + Held(s.workers, id) + Occ(DoneIds(s.done), id)
  }

  // ----- the invariant -----

  ghost predicate Conserved(s: State) {
    forall id: nat :: Census(s, id) == if id < |s.ledger| then 1 else 0
  }

  ghost predicate Inv(s: State) {
    && s.topology == PIPELINE
    && MessagesOk(s)
    && AllListed(s)
    && Conserved(s)
    && s.nackOrder == s.wakeOrder + ParkedIds(s.retryQ)
  }

  // With the declared topology the three ways a message moves do what their names say.
  lemma Moves(s: State)
    requires s.topology == PIPELINE
    ensures RUN in s.topology.queues && RETRY in s.topology.queues
    ensures forall m: Message :: Arrive(s, Route(PIPELINE, EXCHANGE, KEY), m) == s.(runQ := s.runQ + [m])
    ensures forall m: Message ::
              Arrive(s, DeadLetterTargets(PIPELINE, RUN), m) == s.(retryQ := s.retryQ + [Parked(m, s.now)])
    ensures forall m: Message :: Arrive(s, DeadLetterTargets(PIPELINE, RETRY), m) == s.(runQ := s.runQ + [m])
  {
    PipelineRoutes();
    Distinct();
  }

  function Rejected(m: Message): Message {
    m.(deaths := Record(m.deaths, RUN, "rejected"), nacks := m.nacks + 1)
  }

  function Returned(m: Message): Message {
    m.(deaths := Record(m.deaths, RETRY, "expired"))
  }

  // What waits in the declared retry queue expires ten seconds after it came; the run queue keeps what it holds.
  lemma Timing(s: State)
    requires s.topology == PIPELINE
    ensures Enabled(s, Wake) <==> s.retryQ != [] && s.retryQ[0].at + TTL <= s.now
    ensures !Enabled(s, Expire)
  {
    Distinct();
  }

  lemma NackIs(s: State, w: nat)
    requires s.topology == PIPELINE && w < |s.workers| && Holding(s.workers[w])
    ensures var m := s.workers[w].msg;
            Nack(s, w) == s.(workers := s.workers[w := Idle], nackOrder := s.nackOrder + [m.id],
                             retryQ := s.retryQ + [Parked(Rejected(m), s.now)])
  {
    Moves(s.(workers := s.workers[w := Idle], nackOrder := s.nackOrder + [s.workers[w].msg.id]));
  }

  lemma WokenIs(s: State)
    requires s.topology == PIPELINE && s.retryQ != []
    ensures var m := s.retryQ[0].msg;
            Woken(s) == s.(retryQ := s.retryQ[1..], wakeOrder := s.wakeOrder + [m.id], runQ := s.runQ + [Returned(m)])
  {
    Moves(s.(retryQ := s.retryQ[1..], wakeOrder := s.wakeOrder + [s.retryQ[0].msg.id]));
  }

  lemma PublishIs(s: State, exec: nat, wf: nat)
    requires s.topology == PIPELINE
    ensures Apply(s, Publish(exec, wf))
         == s.(ledger := s.ledger + [Accepted(exec, wf, s.now)],
               runQ := s.runQ + [Message(|s.ledger|, exec, wf, [], s.now, 0, 0, 0)])
  {
    Moves(s.(ledger := s.ledger + [Accepted(exec, wf, s.now)]));
  }

  // ----- messages stay well formed -----

  lemma RejectedOk(m: Message, now: nat)
    requires m.nacks < MAX_RETRIES && m.deaths == BackDeaths(m.nacks) && m.runs <= m.nacks + m.losses + 1
    requires m.born + TTL * m.nacks <= now
    ensures ParkedOk(Parked(Rejected(m), now), now)
  {
    OneTrip(m.nacks);
  }

  lemma ReturnedOk(p: Parked, now: nat)
    requires ParkedOk(p, now) && p.at + TTL <= now
    ensures ReadyOk(Returned(p.msg), now)
  {
    OneTrip(p.msg.nacks - 1);
  }

  lemma CountIsNacks(m: Message, now: nat)
    requires ReadyOk(m, now) || CallingOk(m, now)
    ensures DeathCount(m.deaths) == m.nacks
  {
    OneTrip(m.nacks);
  }

  // ----- counting lemmas -----

  lemma {:induction false} OccAppend(a: seq<nat>, b: seq<nat>, id: nat)
    ensures Occ(a + b, id) == Occ(a, id) + Occ(b, id)
  {
    if a == [] { assert a + b == b; }
    else {
      assert (a + b)[1..] == a[1..] + b;
      OccAppend(a[1..], b, id);
    }
  }

  lemma OccOne(x: nat, id: nat)
    ensures Occ([x], id) == if x == id then 1 else 0
  {
    assert [x][1..] == [];
  }

  lemma RunConcat(a: seq<Message>, b: seq<Message>, id: nat)
    ensures Occ(RunIds(a + b), id) == Occ(RunIds(a), id) + Occ(RunIds(b), id)
  {
    assert RunIds(a + b) == RunIds(a) + RunIds(b);
    OccAppend(RunIds(a), RunIds(b), id);
  }

  lemma RunSnoc(q: seq<Message>, m: Message, id: nat)
    ensures Occ(RunIds(q + [m]), id) == Occ(RunIds(q), id) + if m.id == id then 1 else 0
  {
    RunConcat(q, [m], id);
    assert RunIds([m]) == [m.id];
    OccOne(m.id, id);
  }

  lemma RunInsert(q: seq<Message>, pos: nat, m: Message, id: nat)
    requires pos <= |q|
    ensures Occ(RunIds(q[..pos] + [m] + q[pos..]), id) == Occ(RunIds(q), id) + if m.id == id then 1 else 0
  {
    RunSnoc(q[..pos], m, id);
    RunConcat(q[..pos] + [m], q[pos..], id);
    RunConcat(q[..pos], q[pos..], id);
    assert q[..pos] + q[pos..] == q;
  }

  lemma ParkedSnoc(q: seq<Parked>, p: Parked, id: nat)
    ensures ParkedIds(q + [p]) == ParkedIds(q) + [p.msg.id]
    ensures Occ(ParkedIds(q + [p]), id) == Occ(ParkedIds(q), id) + if p.msg.id == id then 1 else 0
  {
    assert ParkedIds(q + [p]) == ParkedIds(q) + [p.msg.id];
    OccAppend(ParkedIds(q), [p.msg.id], id);
    OccOne(p.msg.id, id);
  }

  lemma DoneSnoc(q: seq<Done>, d: Done, id: nat)
    ensures Occ(DoneIds(q + [d]), id) == Occ(DoneIds(q), id) + if d.msg.id == id then 1 else 0
  {
    assert DoneIds(q + [d]) == DoneIds(q) + [d.msg.id];
    OccAppend(DoneIds(q), [d.msg.id], id);
    OccOne(d.msg.id, id);
  }

  lemma {:induction false} HeldSwap(ws: seq<Slot>, w: nat, x: Slot, id: nat)
    requires w < |ws|
    ensures Held(ws[w := x], id) + Holds(ws[w], id) == Held(ws, id) + Holds(x, id)
  {
    var vs := ws[w := x];
    if w == 0 {
      assert vs[1..] == ws[1..];
    } else {
      assert vs[1..] == ws[1..][w - 1 := x];
      HeldSwap(ws[1..], w - 1, x, id);
    }
  }

  // ----- each step keeps the invariant -----

  lemma ListedGrows(s: State, a: Accepted)
    requires AllListed(s)
    ensures AllListed(s.(ledger := s.ledger + [a]))
  {
  }

  lemma AppendedCensus(s: State, a: Accepted, m: Message)
    requires Conserved(s) && m.id == |s.ledger|
    ensures Conserved(s.(ledger := s.ledger + [a], runQ := s.runQ + [m]))
  {
    var t := s.(ledger := s.ledger + [a], runQ := s.runQ + [m]);
    forall id: nat ensures Census(t, id) == if id < |t.ledger| then 1 else 0 {
      RunSnoc(s.runQ, m, id);
      assert Census(t, id) == Census(s, id) + if m.id == id then 1 else 0;
    }
  }

  lemma AppendedInv(s: State, exec: nat, wf: nat, m: Message)
    requires Inv(s) && m == Message(|s.ledger|, exec, wf, [], s.now, 0, 0, 0)
    ensures Inv(s.(ledger := s.ledger + [Accepted(exec, wf, s.now)], runQ := s.runQ + [m]))
  {
    var a := Accepted(exec, wf, s.now);
    ListedGrows(s, a);
    AppendedCensus(s, a, m);
    assert ReadyOk(m, s.now) && Listed(m, s.ledger + [a]);
  }

  lemma PublishKeeps(s: State, exec: nat, wf: nat)
    requires Inv(s)
    ensures Inv(Apply(s, Publish(exec, wf)))
  {
    PublishIs(s, exec, wf);
    AppendedInv(s, exec, wf, Message(|s.ledger|, exec, wf, [], s.now, 0, 0, 0));
  }

  lemma DeliverKeeps(s: State, w: nat)
    requires Inv(s) && Enabled(s, Deliver(w))
    ensures Inv(Apply(s, Deliver(w)))
  {
    var t := Apply(s, Deliver(w));
    forall id: nat ensures Census(t, id) == Census(s, id) {
      HeldSwap(s.workers, w, Got(s.runQ[0]), id);
    }
  }

  lemma SettleKeeps(s: State, w: nat, how: How)
    requires Inv(s) && w < |s.workers| && Holding(s.workers[w])
    requires how.RetriesExhausted? <==> s.workers[w].msg.nacks == MAX_RETRIES
    ensures Inv(Settle(s, w, how))
  {
    var t := Settle(s, w, how);
    var d := Done(s.workers[w].msg, how);
    assert SlotOk(s.workers[w], s.now);
    assert DoneOk(d);
    forall id: nat ensures Census(t, id) == Census(s, id) {
      HeldSwap(s.workers, w, Idle, id);
      DoneSnoc(s.done, d, id);
    }
  }

  lemma NackCensus(s: State, w: nat, p: Parked, order: seq<nat>)
    requires Conserved(s) && w < |s.workers| && Holding(s.workers[w]) && p.msg.id == s.workers[w].msg.id
    ensures Conserved(s.(workers := s.workers[w := Idle], nackOrder := order, retryQ := s.retryQ + [p]))
  {
    var t := s.(workers := s.workers[w := Idle], nackOrder := order, retryQ := s.retryQ + [p]);
    forall id: nat ensures Census(t, id) == Census(s, id) {
      HeldSwap(s.workers, w, Idle, id);
      ParkedSnoc(s.retryQ, p, id);
    }
  }

  lemma NackKeeps(s: State, w: nat)
    requires Inv(s) && w < |s.workers| && Holding(s.workers[w]) && s.workers[w].msg.nacks < MAX_RETRIES
    ensures Inv(Nack(s, w))
  {
    var m := s.workers[w].msg;
    var p := Parked(Rejected(m), s.now);
    NackIs(s, w);
    assert SlotOk(s.workers[w], s.now);
    RejectedOk(m, s.now);
    ParkedSnoc(s.retryQ, p, 0);
    NackCensus(s, w, p, s.nackOrder + [m.id]);
  }

  lemma HandleKeeps(s: State, w: nat, row: Lookup, call: nat)
    requires Inv(s) && Enabled(s, Handle(w, row, call))
    ensures Inv(Apply(s, Handle(w, row, call)))
  {
    var m := s.workers[w].msg;
    assert SlotOk(s.workers[w], s.now);
    CountIsNacks(m, s.now);
    match Decide(m.deaths, row)
    case DropExhausted => SettleKeeps(s, w, RetriesExhausted);
    case DropUnreadable => SettleKeeps(s, w, Unreadable);
    case DropNoRow => SettleKeeps(s, w, NoRow);
    case Requeue => NackKeeps(s, w);
    case Call => CallKeeps(s, w, call);
  }

  lemma CallKeeps(s: State, w: nat, call: nat)
    requires Inv(s) && w < |s.workers| && s.workers[w].Got? && s.workers[w].msg.nacks < MAX_RETRIES
    ensures var m := s.workers[w].msg;
            Inv(s.(workers := s.workers[w := Calling(m.(runs := m.runs + 1), call)]))
  {
    var m := s.workers[w].msg;
    var x := Calling(m.(runs := m.runs + 1), call);
    assert SlotOk(s.workers[w], s.now);
    forall id: nat ensures Held(s.workers[w := x], id) == Held(s.workers, id) {
      HeldSwap(s.workers, w, x, id);
    }
    var t := s.(workers := s.workers[w := x]);
    forall id: nat ensures Census(t, id) == Census(s, id) {}
  }

  lemma ReplyKeeps(s: State, w: nat, ok: bool)
    requires Inv(s) && Enabled(s, Reply(w, ok))
    ensures Inv(Apply(s, Reply(w, ok)))
  {
    assert SlotOk(s.workers[w], s.now);
    if ok { SettleKeeps(s, w, Replied); } else { NackKeeps(s, w); }
  }

  lemma ParkedCons(q: seq<Parked>, id: nat)
    requires q != []
    ensures ParkedIds(q) == [q[0].msg.id] + ParkedIds(q[1..])
    ensures Occ(ParkedIds(q), id) == (if q[0].msg.id == id then 1 else 0) + Occ(ParkedIds(q[1..]), id)
  {
    assert ParkedIds(q)[1..] == ParkedIds(q[1..]);
  }

  lemma MovedCensus(s: State, back: Message, order: seq<nat>)
    requires Conserved(s) && s.retryQ != [] && back.id == s.retryQ[0].msg.id
    ensures Conserved(s.(retryQ := s.retryQ[1..], wakeOrder := order, runQ := s.runQ + [back]))
  {
    var t := s.(retryQ := s.retryQ[1..], wakeOrder := order, runQ := s.runQ + [back]);
    forall id: nat ensures Census(t, id) == Census(s, id) {
      RunSnoc(s.runQ, back, id);
      ParkedCons(s.retryQ, id);
    }
  }

  lemma MovedInv(s: State, back: Message)
    requires Inv(s) && s.retryQ != [] && back.id == s.retryQ[0].msg.id && ReadyOk(back, s.now) && Listed(back, s.ledger)
    ensures Inv(s.(retryQ := s.retryQ[1..], wakeOrder := s.wakeOrder + [back.id], runQ := s.runQ + [back]))
  {
    ParkedCons(s.retryQ, 0);
    MovedCensus(s, back, s.wakeOrder + [back.id]);
  }

  lemma WakeKeeps(s: State)
    requires Inv(s) && Enabled(s, Wake)
    ensures Inv(Apply(s, Wake))
  {
    WokenIs(s);
    Timing(s);
    ReturnedOk(s.retryQ[0], s.now);
    MovedInv(s, Returned(s.retryQ[0].msg));
  }

  lemma LoseCensus(s: State, w: nat, pos: nat)
    requires Conserved(s) && Enabled(s, Lose(w, pos))
    ensures Conserved(Apply(s, Lose(w, pos)))
  {
    var t := Apply(s, Lose(w, pos));
    forall id: nat ensures Census(t, id) == Census(s, id) {
      HeldSwap(s.workers, w, Down, id);
      if Holding(s.workers[w]) {
        RunInsert(s.runQ, pos, s.workers[w].msg.(losses := s.workers[w].msg.losses + 1), id);
      }
    }
  }

  lemma LoseKeeps(s: State, w: nat, pos: nat)
    requires Inv(s) && Enabled(s, Lose(w, pos))
    ensures Inv(Apply(s, Lose(w, pos)))
  {
    LoseCensus(s, w, pos);
    if Holding(s.workers[w]) {
      var m := s.workers[w].msg;
      var back := m.(losses := m.losses + 1);
      assert SlotOk(s.workers[w], s.now);
      assert ReadyOk(back, s.now) && Listed(back, s.ledger);
      InsertedOk(s.runQ, pos, back, s.now, s.ledger);
    }
  }

  lemma InsertedOk(q: seq<Message>, pos: nat, m: Message, now: nat, ledger: seq<Accepted>)
    requires pos <= |q| && ReadyOk(m, now) && Listed(m, ledger)
    requires forall i :: 0 <= i < |q| ==> ReadyOk(q[i], now)
    requires forall i :: 0 <= i < |q| ==> Listed(q[i], ledger)
    ensures var r := q[..pos] + [m] + q[pos..];
            forall i :: 0 <= i < |r| ==> ReadyOk(r[i], now) && Listed(r[i], ledger)
  {
    var r := q[..pos] + [m] + q[pos..];
    forall i | 0 <= i < |r| ensures ReadyOk(r[i], now) && Listed(r[i], ledger) {
      if i < pos { assert r[i] == q[i]; }
      else if i > pos { assert r[i] == q[i - 1]; }
    }
  }

  lemma RestartKeeps(s: State, w: nat)
    requires Inv(s) && Enabled(s, Restart(w))
    ensures Inv(Apply(s, Restart(w)))
  {
    var t := Apply(s, Restart(w));
    forall id: nat ensures Census(t, id) == Census(s, id) {
      HeldSwap(s.workers, w, Idle, id);
    }
  }

  lemma TickKeeps(s: State, d: nat)
    requires Inv(s)
    ensures Inv(Apply(s, Tick(d)))
  {
    var t := Apply(s, Tick(d));
    forall id: nat ensures Census(t, id) == Census(s, id) {}
  }

  // Every step of every participant keeps the invariant.
  lemma StepKeepsInv(s: State, step: Step)
    requires Inv(s) && Enabled(s, step)
    ensures Inv(Apply(s, step))
  {
    Timing(s);
    match step
    case Publish(exec, wf) => PublishKeeps(s, exec, wf);
    case Deliver(w) => DeliverKeeps(s, w);
    case Handle(w, row, call) => HandleKeeps(s, w, row, call);
    case Reply(w, ok) => ReplyKeeps(s, w, ok);
    case Wake => WakeKeeps(s);
    case Expire =>
    case Lose(w, pos) => LoseKeeps(s, w, pos);
    case Restart(w) => RestartKeeps(s, w);
    case Tick(d) => TickKeeps(s, d);
  }

  lemma InitInv(workers: nat)
    ensures Inv(Init(workers))
  {
    var s := Init(workers);
    forall id: nat ensures Held(s.workers, id) == 0 { NoneHeld(s.workers, id); }
    forall id: nat ensures Census(s, id) == 0 {}
  }

  lemma {:induction false} NoneHeld(ws: seq<Slot>, id: nat)
    requires forall w :: 0 <= w < |ws| ==> !Holding(ws[w])
    ensures Held(ws, id) == 0
  {
    if ws != [] { NoneHeld(ws[1..], id); }
  }

  // So it holds in every reachable state, with any number of workers and any interleaving.
  lemma {:induction false} ReachableInv(s: State, trace: seq<Step>)
    requires Inv(s) && Legal(s, trace)
    ensures Inv(After(s, trace))
    decreases |trace|
  {
    if trace != [] {
      StepKeepsInv(s, trace[0]);
      ReachableInv(Apply(s, trace[0]), trace[1..]);
    }
  }
}
