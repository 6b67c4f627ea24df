/** The consumer goroutine: its message handler and its loop, each proved to carry out exactly the steps
    that the retry protocol allows, with everyone else acting at any moment and its own connection failing. */
module Worker {
  import opened Json
  import opened Messages
  import opened Sequences
  import Topology
  import P = Protocol

  datatype Delivery = Delivery(headers: Headers, body: string)

  datatype RowResult = RowFound | RowMissing | RowFailed

  // What the handler learns from a body and from the row lookup it leads to.
  function Seen(body: string, row: RowResult): P.Lookup {
    if Unmarshal(body).None? then P.BadBody
    else match row
      case RowFound => P.Found
      case RowMissing => P.NotFound
      case RowFailed => P.DbError
  }

  // What the handler asks of others: the row of an execution, and the engine to run it.
  datatype Query = RowOf(executionId: nat) | RunOf(executionId: nat, workflowId: nat, payload: string)

  // The row is looked up for a readable message with retries left, and the engine is called if there is one; both with
  // what the body says.
  function Queries(t: Turn): seq<Query> {
    if CountIn(t.d.headers) >= 3 || Unmarshal(t.d.body).None? then []
    else
      var m := Unmarshal(t.d.body).value;
      [RowOf(m.executionId)] + if t.row.RowFound? then [RunOf(m.executionId, m.workflowId, m.triggerPayload)] else []
  }

  function AllQueries(turns: seq<Turn>): seq<Query> {
    if turns == [] then [] else Queries(turns[0]) + AllQueries(turns[1..])
  }

  // One round of the loop: the steps of everyone else until the delivery (before) and while the handler works
  // (during), what the handler sees, and whether its own connection is lost before it has acknowledged, the
  // delivery going back to position lost.value of the run queue.
  datatype Turn = Turn(before: seq<P.Step>, d: Delivery, row: RowResult, call: nat, during: seq<P.Step>,
                       lost: Option<nat>, ok: bool)

  predicate Elsewhere(step: P.Step, w: nat) {
    match step
    case Deliver(v) => v != w
    case Handle(v, _, _) => v != w
    case Reply(v, _) => v != w
    case Lose(v, _) => v != w
    case Restart(v) => v != w
    case _ => true
  }

  predicate AllElsewhere(steps: seq<P.Step>, w: nat) {
    forall k :: 0 <= k < |steps| ==> Elsewhere(steps[k], w)
  }

  // The protocol's account of a handler at work. An engine call begins at once and ends with the reply; any other
  // decision takes effect with its acknowledgement; a lost connection takes the place of either.
  function Work(w: nat, t: Turn, calls: bool): seq<P.Step> {
    var handle := P.Handle(w, Seen(t.d.body, t.row), t.call);
    if calls then [handle] + t.during + [if t.lost.Some? then P.Lose(w, t.lost.value) else P.Reply(w, t.ok)]
    else t.during + [if t.lost.Some? then P.Lose(w, t.lost.value) else handle]
  }

  predicate Calls(m: P.Message, t: Turn) {
    P.Decide(m.deaths, Seen(t.d.body, t.row)) == P.Call
  }

  predicate Handling(s: P.State, w: nat, t: Turn) {
    && w < |s.workers| && s.workers[w].Got? && Carry(t.d.headers, s.workers[w].msg.deaths)
    && AllElsewhere(t.during, w) && P.Legal(s, Work(w, t, Calls(s.workers[w].msg, t)))
  }

  function Worked(s: P.State, w: nat, t: Turn): P.State
    requires Handling(s, w, t)
  {
    P.After(s, Work(w, t, Calls(s.workers[w].msg, t)))
  }

  predicate Fits(s: P.State, w: nat, t: Turn) {
    && P.Legal(s, t.before) && AllElsewhere(t.before, w)
    && P.Enabled(P.After(s, t.before), P.Deliver(w))
    && Handling(P.Apply(P.After(s, t.before), P.Deliver(w)), w, t)
  }

  function Turned(s: P.State, w: nat, t: Turn): P.State
    requires Fits(s, w, t)
  {
    Worked(P.Apply(P.After(s, t.before), P.Deliver(w)), w, t)
  }

  // A lost connection ends the loop.
  predicate AllFit(s: P.State, w: nat, turns: seq<Turn>)
    decreases |turns|
  {
    turns == [] ||
    (Fits(s, w, turns[0]) && (turns[0].lost.Some? ==> |turns| == 1) && AllFit(Turned(s, w, turns[0]), w, turns[1..]))
  }

  function Consumed(s: P.State, w: nat, turns: seq<Turn>): P.State
    requires AllFit(s, w, turns)
    decreases |turns|
  {
    if turns == [] then s else Consumed(Turned(s, w, turns[0]), w, turns[1..])
  }

  // ----- what others do leaves this worker alone -----

  lemma StepStaysPut(s: P.State, step: P.Step, w: nat)
    requires P.Enabled(s, step) && Elsewhere(step, w) && w < |s.workers|
    ensures w < |P.Apply(s, step).workers| && P.Apply(s, step).workers[w] == s.workers[w]
  {
  }

  lemma {:induction false} StaysPut(s: P.State, steps: seq<P.Step>, w: nat)
    requires P.Legal(s, steps) && AllElsewhere(steps, w) && w < |s.workers|
    ensures w < |P.After(s, steps).workers| && P.After(s, steps).workers[w] == s.workers[w]
    decreases |steps|
  {
    if steps != [] {
      StepStaysPut(s, steps[0], w);
      assert AllElsewhere(steps[1..], w);
      StaysPut(P.Apply(s, steps[0]), steps[1..], w);
    }
  }

  function Started(s: P.State, w: nat, call: nat): P.State
    requires w < |s.workers| && s.workers[w].Got?
  {
    var m := s.workers[w].msg;
    s.(workers := s.workers[w := P.Calling(m.(runs := m.runs + 1), call)])
  }

  lemma HandleIs(s: P.State, w: nat, seen: P.Lookup, call: nat)
    requires P.Enabled(s, P.Handle(w, seen, call))
    ensures P.Apply(s, P.Handle(w, seen, call))
         == match P.Decide(s.workers[w].msg.deaths, seen)
            case Call => Started(s, w, call)
            case d => Acknowledged(s, w, d)
  {
  }

  // What an acknowledgement that follows a decision does; a call is acknowledged by its reply.
  function Acknowledged(u: P.State, w: nat, d: P.Decision): P.State
    requires w < |u.workers| && P.Holding(u.workers[w])
  {
    match d
    case DropExhausted => P.Settle(u, w, P.RetriesExhausted)
    case DropUnreadable => P.Settle(u, w, P.Unreadable)
    case DropNoRow => P.Settle(u, w, P.NoRow)
    case Requeue => P.Nack(u, w)
    case Call => u
  }

  // The state after others have acted, and after the connection is lost if it is.
  function Meanwhile(s: P.State, w: nat, t: Turn): P.State
    requires P.Legal(s, t.during) && (t.lost.Some? ==> P.Enabled(P.After(s, t.during), P.Lose(w, t.lost.value)))
  {
    var u := P.After(s, t.during);
    if t.lost.Some? then P.Apply(u, P.Lose(w, t.lost.value)) else u
  }

  lemma OneStep(s: P.State, step: P.Step)
    requires P.Legal(s, [step])
    ensures P.Enabled(s, step) && P.After(s, [step]) == P.Apply(s, step)
  {
    assert [step][1..] == [];
  }

  lemma DuringThen(s: P.State, w: nat, t: Turn, last: P.Step)
    requires w < |s.workers| && AllElsewhere(t.during, w) && P.Legal(s, t.during + [last])
    ensures P.Legal(s, t.during) && P.Enabled(P.After(s, t.during), last)
    ensures P.After(s, t.during + [last]) == P.Apply(P.After(s, t.during), last)
    ensures w < |P.After(s, t.during).workers| && P.After(s, t.during).workers[w] == s.workers[w]
  {
    P.Split(s, t.during, [last]);
    OneStep(P.After(s, t.during), last);
    StaysPut(s, t.during, w);
  }

  class Consumer {
    const slot: nat
    var broker: P.State
    var queries: seq<Query>

    constructor (slot: nat, broker: P.State)
      ensures this.slot == slot && this.broker == broker && queries == []
    {
      this.slot, this.broker, queries := slot, broker, [];
    }

    // Everyone else acts, and the connection may fail.
    method Elapse(t: Turn)
      requires P.Legal(broker, t.during)
      requires t.lost.Some? ==> P.Enabled(P.After(broker, t.during), P.Lose(slot, t.lost.value))
      modifies this`broker
      ensures broker == Meanwhile(old(broker), slot, t)
    {
      broker := P.After(broker, t.during);
      if t.lost.Some? { broker := P.Apply(broker, P.Lose(slot, t.lost.value)); }
    }

    // On a closed channel an acknowledgement has no effect; its error is ignored.
    method Ack(how: P.How)
      requires slot < |broker.workers|
      modifies this`broker
      ensures broker == if P.Holding(old(broker).workers[slot]) then P.Settle(old(broker), slot, how) else old(broker)
    {
      if P.Holding(broker.workers[slot]) { broker := P.Settle(broker, slot, how); }
    }

    // Rejected without requeueing, so the broker dead-letters it.
    method Reject()
      requires slot < |broker.workers|
      modifies this`broker
      ensures broker == if P.Holding(old(broker).workers[slot]) then P.Nack(old(broker), slot) else old(broker)
    {
      if P.Holding(broker.workers[slot]) { broker := P.Nack(broker, slot); }
    }

    method LookUp(executionId: nat)
      modifies this`queries
      ensures queries == old(queries) + [RowOf(executionId)]
    {
      queries := queries + [RowOf(executionId)];
    }

    method CallEngine(executionId: nat, workflowId: nat, payload: string, call: nat)
      requires slot < |broker.workers| && broker.workers[slot].Got?
      modifies this
      ensures broker == Started(old(broker), slot, call)
      ensures queries == old(queries) + [RunOf(executionId, workflowId, payload)]
    {
      queries := queries + [RunOf(executionId, workflowId, payload)];
      var m := broker.workers[slot].msg;
      broker := broker.(workers := broker.workers[slot := P.Calling(m.(runs := m.runs + 1), call)]);
    }

    // Every path settles or rejects the delivery exactly once, as the protocol decides, or loses it to the broker.
    method Handle(t: Turn)
      requires Handling(broker, slot, t)
      modifies this
      ensures broker == Worked(old(broker), slot, t) && queries == old(queries) + Queries(t)
    {
      Decided(broker.workers[slot].msg, t);
      if CountIn(t.d.headers) >= Topology.MAX_RETRIES {
        Drop(t, P.RetriesExhausted);
        return;
      }
      var msg := Unmarshal(t.d.body);
      if msg.None? {
        Drop(t, P.Unreadable);
        return;
      }
      LookUp(msg.value.executionId);
      match t.row {
        case RowMissing =>
          Drop(t, P.NoRow);
          return;
        case RowFailed =>
          Retry(t);
          return;
        case RowFound =>
      }
      RunAndReply(t, msg.value);
    }

    // Acknowledged without an engine call.
    method Drop(t: Turn, how: P.How)
      requires Handling(broker, slot, t) && Drops(broker.workers[slot].msg, t, how)
      modifies this`broker
      ensures broker == Worked(old(broker), slot, t)
    {
      NoCallWork(broker, slot, t);
      Elapse(t);
      Ack(how);
    }

    // Rejected without an engine call.
    method Retry(t: Turn)
      requires Handling(broker, slot, t)
      requires P.Decide(broker.workers[slot].msg.deaths, Seen(t.d.body, t.row)) == P.Requeue
      modifies this`broker
      ensures broker == Worked(old(broker), slot, t)
    {
      NoCallWork(broker, slot, t);
      Elapse(t);
      Reject();
    }

    // The handler's last part: the engine call and what its reply comes to.
    method RunAndReply(t: Turn, m: ExecutionMessage)
      requires Handling(broker, slot, t) && Calls(broker.workers[slot].msg, t)
      modifies this
      ensures broker == Worked(old(broker), slot, t)
      ensures queries == old(queries) + [RunOf(m.executionId, m.workflowId, m.triggerPayload)]
    {
      CallWork(broker, slot, t);
      CallEngine(m.executionId, m.workflowId, m.triggerPayload, t.call);
      Elapse(t);
      if !t.ok {
        Reject();
        return;
      }
      Ack(P.Replied);
    }

    // Prefetch one: the broker hands over the head of the run queue, and only to an idle consumer.
    method Await(t: Turn)
      requires Fits(broker, slot, t)
      modifies this`broker
      ensures broker == P.Apply(P.After(old(broker), t.before), P.Deliver(slot))
    {
      broker := P.Apply(P.After(broker, t.before), P.Deliver(slot));
    }

    // The loop: it ends when the channel is closed under it, or closes the channel itself between two deliveries
    // when its context is cancelled.
    method Consume(turns: seq<Turn>, cancelled: bool)
      requires slot < |broker.workers| && broker.workers[slot].Idle? && AllFit(broker, slot, turns)
      modifies this
      ensures var t := Consumed(old(broker), slot, turns);
              && slot < |t.workers|
              && broker == if cancelled && t.workers[slot].Idle? then P.Apply(t, P.Lose(slot, 0)) else t
      ensures queries == old(queries) + AllQueries(turns)
    {
      var i := 0;
      assert turns[0..] == turns;
      while i < |turns|
        invariant 0 <= i <= |turns|
        invariant slot < |broker.workers| && (broker.workers[slot].Idle? || i == |turns|)
        invariant AllFit(broker, slot, turns[i..])
        invariant Consumed(broker, slot, turns[i..]) == Consumed(old(broker), slot, turns)
        invariant queries + AllQueries(turns[i..]) == old(queries) + AllQueries(turns)
      {
        assert turns[i..][1..] == turns[i + 1..];
        var t := turns[i];
        WorkedSlot(P.Apply(P.After(broker, t.before), P.Deliver(slot)), slot, t);
        Assoc(queries, Queries(t), AllQueries(turns[i + 1..]));
        Await(t);
        Handle(t);
        i := i + 1;
      }
      if cancelled && broker.workers[slot].Idle? { broker := P.Apply(broker, P.Lose(slot, 0)); }
    }
  }

  predicate Drops(m: P.Message, t: Turn, how: P.How) {
    match P.Decide(m.deaths, Seen(t.d.body, t.row))
    case DropExhausted => how == P.RetriesExhausted
    case DropUnreadable => how == P.Unreadable
    case DropNoRow => how == P.NoRow
    case _ => false
  }

  // What each case of the handler comes to in the protocol, and what it asks for.
  lemma Decided(m: P.Message, t: Turn)
    requires Carry(t.d.headers, m.deaths)
    ensures var d := P.Decide(m.deaths, Seen(t.d.body, t.row));
            var body := Unmarshal(t.d.body);
            if CountIn(t.d.headers) >= Topology.MAX_RETRIES then d == P.DropExhausted && Queries(t) == []
            else if body.None? then d == P.DropUnreadable && Queries(t) == []
            else
              var row := RowOf(body.value.executionId);
              var run := RunOf(body.value.executionId, body.value.workflowId, body.value.triggerPayload);
              match t.row
              case RowMissing => d == P.DropNoRow && Queries(t) == [row]
              case RowFailed => d == P.Requeue && Queries(t) == [row]
              case RowFound => d == P.Call && Queries(t) == [row] + [run]
  {
    CountIsDeathCount(t.d.headers, m.deaths);
  }

  lemma NoCallWork(s: P.State, w: nat, t: Turn)
    requires Handling(s, w, t) && !Calls(s.workers[w].msg, t)
    ensures P.Legal(s, t.during) && (t.lost.Some? ==> P.Enabled(P.After(s, t.during), P.Lose(w, t.lost.value)))
    ensures var u := Meanwhile(s, w, t);
            && w < |u.workers|
            && (t.lost.Some? ==> u.workers[w].Down? && Worked(s, w, t) == u)
            && (t.lost.None? ==> u.workers[w] == s.workers[w])
            && (t.lost.None? ==>
                  Worked(s, w, t) == Acknowledged(u, w, P.Decide(s.workers[w].msg.deaths, Seen(t.d.body, t.row))))
  {
    var seen := Seen(t.d.body, t.row);
    DuringThen(s, w, t, if t.lost.Some? then P.Lose(w, t.lost.value) else P.Handle(w, seen, t.call));
    if t.lost.None? { HandleIs(P.After(s, t.during), w, seen, t.call); }
  }

  lemma CallWork(s: P.State, w: nat, t: Turn)
    requires Handling(s, w, t) && Calls(s.workers[w].msg, t)
    ensures var v := Started(s, w, t.call);
            && P.Legal(v, t.during) && (t.lost.Some? ==> P.Enabled(P.After(v, t.during), P.Lose(w, t.lost.value)))
            && var u := Meanwhile(v, w, t);
            && w < |u.workers|
            && (t.lost.Some? ==> u.workers[w].Down? && Worked(s, w, t) == u)
            && (t.lost.None? ==> u.workers[w] == v.workers[w])
            && (t.lost.None? ==> Worked(s, w, t) == if t.ok then P.Settle(u, w, P.Replied) else P.Nack(u, w))
  {
    var handle := P.Handle(w, Seen(t.d.body, t.row), t.call);
    var last := if t.lost.Some? then P.Lose(w, t.lost.value) else P.Reply(w, t.ok);
    assert Work(w, t, true) == [handle] + (t.during + [last]);
    P.Split(s, [handle], t.during + [last]);
    OneStep(s, handle);
    HandleIs(s, w, Seen(t.d.body, t.row), t.call);
    DuringThen(Started(s, w, t.call), w, t, last);
  }

  lemma WorkedSlot(s: P.State, w: nat, t: Turn)
    requires Handling(s, w, t)
    ensures w < |Worked(s, w, t).workers|
    ensures if t.lost.Some? then Worked(s, w, t).workers[w].Down? else Worked(s, w, t).workers[w].Idle?
  {
    if Calls(s.workers[w].msg, t) { CallWork(s, w, t); } else { NoCallWork(s, w, t); }
  }

  // The state in which a handler that keeps its connection acknowledges.
  function Verge(s: P.State, w: nat, t: Turn): P.State
    requires Handling(s, w, t) && t.lost.None?
  {
    if Calls(s.workers[w].msg, t) then
      CallWork(s, w, t);
      P.After(Started(s, w, t.call), t.during)
    else
      NoCallWork(s, w, t);
      P.After(s, t.during)
  }

  // A delivery that is not lost is either settled or rejected, never both and never neither: rejected exactly when
  // its retries are not used up, its body can be read, and the row lookup failed or the engine call that the row led
  // to did. The engine is called once if there is a row, and else not at all.
  lemma OneVerdict(s: P.State, w: nat, t: Turn)
    requires Handling(s, w, t) && t.lost.None? && Verge(s, w, t).topology == Topology.PIPELINE
    ensures var m, u, v := s.workers[w].msg, Verge(s, w, t), Worked(s, w, t);
            var readable := Unmarshal(t.d.body).Some?;
            var handled := CountIn(t.d.headers) < 3 && readable;
            var calls := if handled && t.row.RowFound? then 1 else 0;
            if handled && (t.row.RowFailed? || (t.row.RowFound? && !t.ok)) then
              && v.done == u.done && v.nackOrder == u.nackOrder + [m.id] && |v.retryQ| == |u.retryQ| + 1
              && v.retryQ[|u.retryQ|].msg.runs == m.runs + calls
            else
              && v.nackOrder == u.nackOrder && v.retryQ == u.retryQ
              && |v.done| == |u.done| + 1 && v.done[|u.done|].msg.id == m.id
              && v.done[|u.done|].msg.runs == m.runs + calls
              && v.done[|u.done|].how == (if CountIn(t.d.headers) >= 3 then P.RetriesExhausted
                                          else if !readable then P.Unreadable
                                          else if t.row.RowMissing? then P.NoRow else P.Replied)
  {
    CountIsDeathCount(t.d.headers, s.workers[w].msg.deaths);
    if Calls(s.workers[w].msg, t) { CallWork(s, w, t); } else { NoCallWork(s, w, t); }
    P.NackIs(Verge(s, w, t), w);
  }

  lemma QueriesOf(t: Turn, m: ExecutionMessage)
    requires Unmarshal(t.d.body) == Some(m)
    ensures Queries(t) == if CountIn(t.d.headers) >= 3 then []
                          else [RowOf(m.executionId)]
                               + if t.row.RowFound? then [RunOf(m.executionId, m.workflowId, m.triggerPayload)] else []
  {
  }

  // So for a published message the handler looks up the row of its execution and has that execution run.
  lemma QueriesName(t: Turn, m: ExecutionMessage)
    requires t.d.body == Marshal(m)
    ensures Queries(t) == if CountIn(t.d.headers) >= 3 then []
                          else [RowOf(m.executionId)]
                               + if t.row.RowFound? then [RunOf(m.executionId, m.workflowId, m.triggerPayload)] else []
  {
    MessageRoundTrip(m);
    QueriesOf(t, m);
  }

  lemma TurnKeeps(s: P.State, w: nat, t: Turn)
    requires P.Inv(s) && Fits(s, w, t)
    ensures P.Inv(Turned(s, w, t))
  {
    P.ReachableInv(s, t.before);
    var s1 := P.After(s, t.before);
    P.StepKeepsInv(s1, P.Deliver(w));
    var s2 := P.Apply(s1, P.Deliver(w));
    P.ReachableInv(s2, Work(w, t, Calls(s2.workers[w].msg, t)));
  }

  // A consumer, run beside any others, is a run of the protocol: it keeps every message in one place and
  // every retry count exact.
  lemma {:induction false} ConsumerKeepsProtocol(s: P.State, w: nat, turns: seq<Turn>)
    requires P.Inv(s) && AllFit(s, w, turns)
    ensures P.Inv(Consumed(s, w, turns))
    decreases |turns|
  {
    if turns != [] {
      TurnKeeps(s, w, turns[0]);
      ConsumerKeepsProtocol(Turned(s, w, turns[0]), w, turns[1..]);
    }
  }
}
