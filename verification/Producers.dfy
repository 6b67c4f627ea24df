/** The two producers of execution messages: the webhook trigger and the scheduler's trigger. Both store a
    pending row and then publish a message that names it. */
module Producers {
  import opened Json
  import opened AiRunner
  import opened Messages
  import opened Sequences
  import P = Protocol
  import S = System

  datatype Publication = Publication(headers: Headers, body: string)

  datatype Found = Present | Absent | Broken(error: string)

  function PayloadOf(payload: string): string {
    if payload == "" then "{}" else payload
  }

  const SCHEDULED := "{\"source\":\"schedule\"}"

  // What the producers write: the execution rows and the messages published.
  datatype Store = Store(rows: map<nat, S.Row>, nextExec: nat, published: seq<Publication>)

  function Stored(s: Store, wf: nat): Store {
    s.(rows := s.rows[s.nextExec := S.Row(wf, "pending")], nextExec := s.nextExec + 1)
  }

  // One attempt to trigger: row first, then message; a failed publish leaves the pending row behind.
  function Attempted(s: Store, wf: nat, payload: string, headers: Headers, created: bool, sent: bool): Store {
    if !created then s
    else if !sent then Stored(s, wf)
    else
      var p := Publication(headers, Marshal(ExecutionMessage(s.nextExec, wf, payload)));
      Stored(s, wf).(published := s.published + [p])
  }

  function TraceHeaders(traceparent: Option<string>): (h: map<string, Amqp>)
    ensures Carry(Some(h), [])
  {
    if traceparent.None? then map[]
    else
      assert |"traceparent"| != |XDEATH|;
      map["traceparent" := Text(traceparent.value)]
  }

  class Producer {
    var store: Store

    constructor ()
      ensures store == Store(map[], 1, [])
    {
      store := Store(map[], 1, []);
    }

    method CreateExecution(wf: nat) returns (id: nat)
      modifies this
      ensures id == old(store).nextExec && store == Stored(old(store), wf)
    {
      id := store.nextExec;
      store := store.(rows := store.rows[id := S.Row(wf, "pending")], nextExec := id + 1);
    }

    // The trace context, if any, is written into the header table in place.
    method Publish(m: ExecutionMessage, traceparent: Option<string>)
      modifies this
      ensures var p := Publication(Some(TraceHeaders(traceparent)), Marshal(m));
              store == old(store).(published := old(store).published + [p])
    {
      var headers := map[];
      if traceparent.Some? { headers := headers["traceparent" := Text(traceparent.value)]; }
      var p := Publication(Some(headers), Marshal(m));
      store := store.(published := store.published + [p]);
    }

    // The webhook: nothing happens unless the workflow exists and the row can be stored.
    method TriggerWorkflow(wf: nat, payload: string, found: Found, createError: Option<string>,
                           publishError: Option<string>,
                           traceparent: Option<string>) returns (r: Result<nat>)
      modifies this
      ensures store == Attempted(old(store), wf, PayloadOf(payload), Some(TraceHeaders(traceparent)),
                                 found.Present? && createError.None?, publishError.None?)
      ensures r.Ok? <==> found.Present? && createError.None? && publishError.None?
      ensures r.Ok? ==> r.value == old(store).nextExec
      ensures found.Absent? ==> r == Err("workflow not found")
      ensures found.Broken? ==> r == Err(found.error)
      ensures found.Present? && createError.Some? ==> r == Err(createError.value)
      ensures found.Present? && createError.None? && publishError.Some? ==>
                r == Err("enqueue execution: " + publishError.value)
      ensures !found.Present? || createError.Some? ==> store == old(store)
      ensures found.Present? && createError.None? ==> Pending(store, old(store).nextExec, wf)
      ensures r.Ok? ==> LastCarries(store, old(store), r.value, wf, if payload == "" then "{}" else payload)
      ensures var context := if traceparent.Some? then map["traceparent" := Text(traceparent.value)] else map[];
              r.Ok? ==> store.published[|old(store).published|].headers == Some(context)
      ensures r.Err? ==> store.published == old(store).published
    {
      match found {
        case Absent => return Err("workflow not found");
        case Broken(e) => return Err(e);
        case Present =>
      }
      var body := payload;
      if body == "" { body := "{}"; }
      if createError.Some? { return Err(createError.value); }
      var id := CreateExecution(wf);
      if publishError.Some? { return Err("enqueue execution: " + publishError.value); }
      Publish(ExecutionMessage(id, wf, body), traceparent);
      MarshalNames(ExecutionMessage(id, wf, body), Some(TraceHeaders(traceparent)), 0);
      return Ok(id);
    }

    // The scheduler's copy: no workflow lookup, a fixed payload, no trace context, errors only logged.
    method TriggerScheduled(wf: nat, created: bool, sent: bool)
      modifies this
      ensures store == Attempted(old(store), wf, SCHEDULED, None, created, sent)
      ensures created ==> Pending(store, old(store).nextExec, wf)
      ensures if created && sent then
                LastCarries(store, old(store), old(store).nextExec, wf, "{\"source\":\"schedule\"}")
              else store.published == old(store).published
    {
      if !created { return; }
      var id := CreateExecution(wf);
      if !sent { return; }
      var p := Publication(None, Marshal(ExecutionMessage(id, wf, SCHEDULED)));
      MarshalNames(ExecutionMessage(id, wf, SCHEDULED), None, 0);
      store := store.(published := store.published + [p]);
    }
  }

  // Row id is that of a pending execution of workflow wf.
  predicate Pending(s: Store, id: nat, wf: nat) {
    id in s.rows && s.rows[id] == S.Row(wf, "pending")
  }

  // One publication has been added, which the worker reads as this execution's message.
  predicate LastCarries(s: Store, before: Store, id: nat, wf: nat, payload: string) {
    && |s.published| == |before.published| + 1 && s.published[..|before.published|] == before.published
    && Reads(s.published[|before.published|], id, wf, payload)
  }

  // The worker reads these ids and this payload, and no dead-letter history.
  predicate Reads(p: Publication, id: nat, wf: nat, payload: string) {
    Unmarshal(p.body) == Some(ExecutionMessage(id, wf, payload)) && CountIn(p.headers) == 0
  }

  // ----- the producers' part of the system -----

  // A publication carries an accepted message with this payload: its body reads back as the message's ids and the
  // payload, and it has no dead-letter history.
  predicate Names(p: Publication, a: P.Accepted, payload: string) {
    Carry(p.headers, []) && Reads(p, a.exec, a.wf, payload)
  }

  ghost predicate Faithful(ledger: seq<P.Accepted>, payloads: seq<string>, published: seq<Publication>) {
    && |published| == |payloads| == |ledger|
    && forall i :: 0 <= i < |published| ==> Names(published[i], ledger[i], payloads[i])
  }

  // The engine changes the status of rows that the producers stored, and nothing else of what they wrote.
  predicate SameRows(stored: map<nat, S.Row>, rows: map<nat, S.Row>) {
    stored.Keys == rows.Keys && forall e :: e in stored ==> stored[e].wf == rows[e].wf
  }

  // payloads[i] belongs to the i-th accepted message.
  ghost predicate Mirrors(store: Store, payloads: seq<string>, s: S.State) {
    SameRows(store.rows, s.rows) && store.nextExec == s.nextExec && Faithful(s.broker.ledger, payloads, store.published)
  }

  lemma LedgerGrows(b: P.State, exec: nat, wf: nat)
    ensures P.Apply(b, P.Publish(exec, wf)).ledger == b.ledger + [P.Accepted(exec, wf, b.now)]
  {
  }

  lemma MarshalNames(m: ExecutionMessage, headers: Headers, born: nat)
    requires Carry(headers, [])
    ensures Names(Publication(headers, Marshal(m)), P.Accepted(m.executionId, m.workflowId, born), m.triggerPayload)
  {
    MessageRoundTrip(m);
    CountIsDeathCount(headers, []);
  }

  lemma FaithfulSnoc(ledger: seq<P.Accepted>, payloads: seq<string>, published: seq<Publication>, p: Publication,
                     a: P.Accepted, payload: string)
    requires Faithful(ledger, payloads, published) && Names(p, a, payload)
    ensures Faithful(ledger + [a], payloads + [payload], published + [p])
  {
    var all, pub := ledger + [a], published + [p];
    forall i | 0 <= i < |pub| ensures Names(pub[i], all[i], (payloads + [payload])[i]) {
      if i < |published| { assert Names(published[i], ledger[i], payloads[i]); }
    }
  }

  lemma TriggerIs(s: S.State, wf: nat, sent: bool)
    ensures var t := s.(rows := s.rows[s.nextExec := S.Row(wf, "pending")], nextExec := s.nextExec + 1);
            S.Apply(s, S.Trigger(wf, sent)) ==
              if sent then t.(broker := P.Apply(t.broker, P.Publish(s.nextExec, wf))) else t
  {
  }

  lemma RowsGrow(stored: map<nat, S.Row>, rows: map<nat, S.Row>, id: nat, row: S.Row)
    requires SameRows(stored, rows)
    ensures SameRows(stored[id := row], rows[id := row])
  {
  }

  // Every attempt that stores a row is a trigger step of the system, and its publication is the message that
  // step puts on the run queue.
  lemma AttemptIsTrigger(store: Store, payloads: seq<string>, s: S.State, wf: nat, payload: string, headers: Headers,
                         sent: bool)
    requires Mirrors(store, payloads, s) && Carry(headers, [])
    ensures Mirrors(Attempted(store, wf, payload, headers, true, sent), if sent then payloads + [payload] else payloads,
                    S.Apply(s, S.Trigger(wf, sent)))
  {
    TriggerIs(s, wf, sent);
    RowsGrow(store.rows, s.rows, s.nextExec, S.Row(wf, "pending"));
    if sent {
      var m := ExecutionMessage(s.nextExec, wf, payload);
      LedgerGrows(s.broker, s.nextExec, wf);
      MarshalNames(m, headers, s.broker.now);
      FaithfulSnoc(s.broker.ledger, payloads, store.published, Publication(headers, Marshal(m)),
                   P.Accepted(s.nextExec, wf, s.broker.now), payload);
    }
  }

  // Who caused a trigger step, and with what payload and trace context.
  datatype Source = Webhook(payload: string, traceparent: Option<string>) | Schedule

  // The payload that a source's message must carry.
  function Requested(src: Source): string {
    match src
    case Webhook(payload, _) => if payload == "" then "{}" else payload
    case Schedule => "{\"source\":\"schedule\"}"
  }

  // Those of the messages accepted in a run, if sources[k] caused its k-th step.
  function AllRequested(trace: seq<S.Step>, sources: seq<Source>): seq<string>
    requires |trace| <= |sources|
    decreases |trace|
  {
    if trace == [] then []
    else
      var first := if trace[0].Trigger? && trace[0].sent then [Requested(sources[0])] else [];
      first + AllRequested(trace[1..], sources[1..])
  }

  function BodyOf(src: Source): string {
    match src
    case Webhook(payload, _) => PayloadOf(payload)
    case Schedule => SCHEDULED
  }

  function HeadersOf(src: Source): (h: Headers)
    ensures Carry(h, [])
  {
    match src
    case Webhook(_, traceparent) => Some(TraceHeaders(traceparent))
    case Schedule => None
  }

  // What the producers have written after a run of the system, if sources[k] caused its k-th step.
  function StoreAfter(store: Store, trace: seq<S.Step>, sources: seq<Source>): Store
    requires |trace| <= |sources|
    decreases |trace|
  {
    if trace == [] then store
    else
      var x, src := trace[0], sources[0];
      var next := if x.Trigger? then Attempted(store, x.wf, BodyOf(src), HeadersOf(src), true, x.sent) else store;
      StoreAfter(next, trace[1..], sources[1..])
  }

  const NOTHING := Store(map[], 1, [])

  lemma PerformStays(store: Store, payloads: seq<string>, s: S.State, c: nat)
    requires Mirrors(store, payloads, s) && S.Inv(s, S.Nobody) && S.Enabled(s, S.Step.Perform(c))
    ensures Mirrors(store, payloads, S.Apply(s, S.Step.Perform(c)))
  {
    S.Stores(s, c, S.Nobody);
  }

  lemma OthersStay(store: Store, payloads: seq<string>, s: S.State, step: S.Step)
    requires Mirrors(store, payloads, s) && S.Inv(s, S.Nobody) && S.Enabled(s, step) && !step.Trigger?
    ensures Mirrors(store, payloads, S.Apply(s, step))
  {
    match step
    case Perform(c) => PerformStays(store, payloads, s, c);
    case Take(w, dbError, _, _) => S.LedgerStays(s.broker, S.TakeStep(s, w, dbError));
    case Answer(w, ok) => S.LedgerStays(s.broker, P.Reply(w, ok));
    case Pass(b) => S.LedgerStays(s.broker, b);
    case Refuse(_) =>
  }

  // Whatever workers, engine and broker do in between, the rows and messages of the system are those the
  // producers wrote, with the payloads that were asked for.
  lemma {:induction false} StoreMirrors(store: Store, payloads: seq<string>, s: S.State, trace: seq<S.Step>,
                                        sources: seq<Source>)
    requires Mirrors(store, payloads, s) && S.Inv(s, S.Nobody) && S.Legal(s, trace) && |trace| <= |sources|
    ensures Mirrors(StoreAfter(store, trace, sources), payloads + AllRequested(trace, sources), S.After(s, trace))
    decreases |trace|
  {
    if trace == [] {
      assert payloads + [] == payloads;
    } else {
      var x, src := trace[0], sources[0];
      var next := if x.Trigger? then Attempted(store, x.wf, BodyOf(src), HeadersOf(src), true, x.sent) else store;
      var here := if x.Trigger? && x.sent then [Requested(src)] else [];
      S.StepKeepsInv(s, x, S.Nobody);
      StepMirrors(store, payloads, s, x, src);
      StoreMirrors(next, payloads + here, S.Apply(s, x), trace[1..], sources[1..]);
      Assoc(payloads, here, AllRequested(trace[1..], sources[1..]));
    }
  }

  lemma StepMirrors(store: Store, payloads: seq<string>, s: S.State, x: S.Step, src: Source)
    requires Mirrors(store, payloads, s) && S.Inv(s, S.Nobody) && S.Enabled(s, x)
    ensures Mirrors(if x.Trigger? then Attempted(store, x.wf, BodyOf(src), HeadersOf(src), true, x.sent) else store,
                    payloads + if x.Trigger? && x.sent then [Requested(src)] else [], S.Apply(s, x))
  {
    assert payloads + [] == payloads;
    if x.Trigger? {
      AttemptIsTrigger(store, payloads, s, x.wf, BodyOf(src), HeadersOf(src), x.sent);
    } else {
      OthersStay(store, payloads, s, x);
    }
  }

  // So in every reachable state, whoever triggered what, the publications are exactly the accepted messages, and
  // each reads back, at the worker, as the ids of a stored row of the same workflow with the payload that its trigger
  // asked for, and starts without dead-letter history: the worker neither drops it as unreadable nor miscounts it.
  lemma ProducersMessagesAreHandled(n: nat, trace: seq<S.Step>, sources: seq<Source>, i: nat)
    requires S.Legal(S.Init(n), trace) && |trace| <= |sources| && i < |S.After(S.Init(n), trace).broker.ledger|
    ensures var s, published := S.After(S.Init(n), trace), StoreAfter(NOTHING, trace, sources).published;
            && |published| == |s.broker.ledger| == |AllRequested(trace, sources)|
            && s.broker.ledger[i].exec in s.rows && s.rows[s.broker.ledger[i].exec].wf == s.broker.ledger[i].wf
            && Reads(published[i], s.broker.ledger[i].exec, s.broker.ledger[i].wf, AllRequested(trace, sources)[i])
            && Carry(published[i].headers, [])
  {
    S.InitInv(n, S.Nobody);
    StoreMirrors(NOTHING, [], S.Init(n), trace, sources);
    S.Reached(n, trace, S.Nobody);
    Handled(StoreAfter(NOTHING, trace, sources), AllRequested(trace, sources), S.After(S.Init(n), trace), i);
  }

  lemma Handled(store: Store, payloads: seq<string>, s: S.State, i: nat)
    requires Mirrors(store, [] + payloads, s) && S.Inv(s, S.Nobody) && i < |s.broker.ledger|
    ensures |store.published| == |s.broker.ledger| == |payloads|
    ensures var a := s.broker.ledger[i];
            && a.exec in s.rows && s.rows[a.exec].wf == a.wf
            && Reads(store.published[i], a.exec, a.wf, payloads[i]) && Carry(store.published[i].headers, [])
  {
    assert [] + payloads == payloads;
    assert Names(store.published[i], s.broker.ledger[i], payloads[i]);
  }
}
