/** The stream handler against a running engine: when the handler reads the row and when it
    subscribes, measured in effects of the execution's run, decides what the client gets. */
module Delivery {
  import opened Json
  import opened Events
  import opened Sse
  import opened StreamHandler
  import opened Engine
  import opened EngineFacts

  lemma {:induction false} NoFinishEvents(es: seq<Effect>)
    requires NoFinish(es)
    ensures forall k :: 0 <= k < |EventsOf(es)| ==> !EventsOf(es)[k].Finished?
  {
    if es != [] { NoFinishEvents(es[1..]); }
  }

  lemma {:induction false} ThroughLast(events: seq<Event>, over: Event)
    requires over.Finished? && forall k :: 0 <= k < |events| ==> !events[k].Finished?
    ensures ThroughFinished(events + [over]) == events + [over]
  {
    if events == [] {
      assert ([] + [over])[1..] == [];
    } else {
      assert (events + [over])[1..] == events[1..] + [over];
      ThroughLast(events[1..], over);
    }
  }

  // What a client connected to execution e of workflow w decodes when the handler read the row after
  // `read` effects of the run and subscribed after `sub`, and no other execution of w is in flight.
  function Client(e: nat, w: nat, script: seq<Effect>, read: nat, sub: nat): seq<Option<Event>>
    requires read <= sub <= |script|
  {
    var row := ExecutionRow(e, w, StatusAfter("pending", script[..read]));
    Received(ParseStream(Response(Some(row), Payloads(EventsOf(script[sub..])))))
  }

  lemma SubscribedTail(e: nat, s: seq<Effect>, final: string, sub: nat) returns (front: seq<Effect>)
    requires EndsOnce(s, e, final) && sub < |s|
    ensures s[sub..] == front + [Publish(Finished(e, final))] && NoFinish(front)
  {
    var n := |s| - 1;
    front := s[sub..n];
    assert s[sub..] == front + [s[n]];
    assert forall k :: 0 <= k < |front| ==> front[k] == s[..n][sub + k];
  }

  lemma Subscribed(e: nat, s: seq<Effect>, final: string, sub: nat)
    requires EndsOnce(s, e, final) && sub < |s|
    ensures ThroughFinished(EventsOf(s[sub..])) == EventsOf(s[sub..])
    ensures EventsOf(s[sub..]) != [] && EventsOf(s[sub..])[|EventsOf(s[sub..])| - 1] == Finished(e, final)
  {
    var over := Publish(Finished(e, final));
    var front := SubscribedTail(e, s, final, sub);
    ReadAppend("", front, [over]);
    ReadOne(over, "");
    NoFinishEvents(front);
    ThroughLast(EventsOf(front), Finished(e, final));
  }

  predicate Delivers(got: seq<Option<Event>>, e: nat, s: seq<Effect>, final: string, read: nat, sub: nat)
    requires sub <= |s|
  {
    if read + 1 >= |s| then got == [Some(Finished(e, final))]
    else if sub < |s| then got == Somes(EventsOf(s[sub..])) && got != [] && got[|got| - 1] == Some(Finished(e, final))
    else got == []
  }

  lemma ClientGets(e: nat, w: nat, s: seq<Effect>, final: string, read: nat, sub: nat)
    requires EndsOnce(s, e, final) && read <= sub <= |s|
    ensures Delivers(Client(e, w, s, read, sub), e, s, final, read, sub)
  {
    var row := ExecutionRow(e, w, StatusAfter("pending", s[..read]));
    var events := EventsOf(s[sub..]);
    assert row.status == StatusAt(|s|, read, final);
    if read + 1 >= |s| {
      TerminalResponse(row, Payloads(events));
    } else {
      ClientReceives(row, events);
      if sub < |s| {
        Subscribed(e, s, final, sub);
        SomesLast(events);
      } else {
        assert s[sub..] == [];
      }
    }
  }

  // The handler reads the row before it subscribes. Exactly three things can happen: the row was already
  // terminal and the client gets that status as one finished event; the subscription came before the end was
  // announced and the client gets every event from there to the end, whose status was stored before; or the
  // end fell between the read and the subscription, and the client gets nothing at all.
  lemma StreamDelivery(e: nat, w: nat, parsed: Option<seq<StepDef>>, obs: seq<Obs>, read: nat, sub: nat)
    requires parsed.Some? ==> |parsed.value| <= |obs|
    requires read <= sub <= |Script(e, parsed, obs)|
    ensures var s := Script(e, parsed, obs);
            var final := Execute(EngineFactory, e, parsed, obs).status;
            && Delivers(Client(e, w, s, read, sub), e, s, final, read, sub)
            && |s| >= 1 && StatusAfter("pending", s[..|s| - 1]) == final
  {
    ScriptEndsOnce(e, parsed, obs);
    ClientGets(e, w, Script(e, parsed, obs), Execute(EngineFactory, e, parsed, obs).status, read, sub);
  }

  lemma {:induction false} SomesLast(events: seq<Event>)
    ensures |Somes(events)| == |events|
    ensures events != [] ==> Somes(events)[|events| - 1] == Some(events[|events| - 1])
  {
    if events != [] { SomesLast(events[1..]); }
  }

  lemma ReceivedSingle(m: Message)
    ensures Received([m]) == [Decode(m.data)]
  {
    assert [m][1..] == [];
  }

  lemma ReceivedOne(over: Event)
    ensures Received([Message("message", Serialise(over), "")]) == [Some(over)]
  {
    ReceivedSingle(Message("message", Serialise(over), ""));
    EventRoundTrip(over);
  }

  lemma TerminalResponse(row: ExecutionRow, payloads: seq<string>)
    requires Terminal(row.status)
    ensures Received(ParseStream(Response(Some(row), payloads))) == [Some(Finished(row.id, row.status))]
  {
    var over := Finished(row.id, row.status);
    OwnPayloadIsPublished(row.id, row.status);
    SerialisedOneLine(over);
    FrameIntactExactly(OwnPayload(row.id, row.status));
    ReceivedOne(over);
  }

  // A connection to a live execution learns of its end exactly when the end was not stored after the read
  // and announced before the subscription.
  lemma EndIsSeenExactly(e: nat, w: nat, parsed: Option<seq<StepDef>>, obs: seq<Obs>, read: nat, sub: nat)
    requires parsed.Some? ==> |parsed.value| <= |obs|
    requires read <= sub <= |Script(e, parsed, obs)|
    ensures var n := |Script(e, parsed, obs)|;
            var over := Some(Finished(e, Execute(EngineFactory, e, parsed, obs).status));
            over in Client(e, w, Script(e, parsed, obs), read, sub) <==> (read + 1 >= n || sub < n)
  {
    StreamDelivery(e, w, parsed, obs, read, sub);
  }

  // ----- other executions on the channel -----

  predicate FirstFinish(events: seq<Event>, k: nat) {
    k < |events| && events[k].Finished? && forall j :: 0 <= j < k ==> !events[j].Finished?
  }

  lemma {:induction false} ThroughFirst(events: seq<Event>, k: nat)
    requires FirstFinish(events, k)
    ensures ThroughFinished(events) == events[..k + 1]
  {
    if k > 0 {
      assert !events[0].Finished?;
      ThroughFirst(events[1..], k - 1);
      assert events[..k + 1] == [events[0]] + events[1..][..k];
    }
  }

  lemma {:induction false} ThroughAll(events: seq<Event>)
    requires forall j :: 0 <= j < |events| ==> !events[j].Finished?
    ensures ThroughFinished(events) == events
  {
    if events != [] { ThroughAll(events[1..]); }
  }

  lemma {:induction false} FindFinish(events: seq<Event>) returns (k: nat)
    ensures k <= |events| && (k < |events| ==> events[k].Finished?) && forall j :: 0 <= j < k ==> !events[j].Finished?
  {
    if events == [] || events[0].Finished? { return 0; }
    var rest := FindFinish(events[1..]);
    k := rest + 1;
    assert forall j :: 0 < j < k ==> events[j] == events[1..][j - 1];
  }

  // The execution's end is the first finish among the events.
  ghost predicate EndsFirst(events: seq<Event>, over: Event) {
    exists k: nat :: FirstFinish(events, k) && events[k] == over
  }

  lemma ThroughHolds(events: seq<Event>, over: Event)
    requires over.Finished?
    ensures over in ThroughFinished(events) <==> EndsFirst(events, over)
  {
    var k := FindFinish(events);
    if k < |events| {
      assert FirstFinish(events, k);
      ThroughFirst(events, k);
      assert forall j: nat :: FirstFinish(events, j) ==> j == k;
    } else {
      ThroughAll(events);
    }
  }

  lemma {:induction false} SomesHold(events: seq<Event>, e: Event)
    ensures Some(e) in Somes(events) <==> e in events
  {
    if events != [] { SomesHold(events[1..], e); }
  }

  // What the client of a row decodes from its subscription on.
  function Decodes(row: ExecutionRow, events: seq<Event>): seq<Option<Event>> {
    Received(ParseStream(Response(Some(row), Payloads(events))))
  }

  // Whatever other executions publish on the workflow's channel: the client of a live execution sees that
  // execution's end if and only if it is the first finish, of any execution, after the subscription.
  lemma OwnEndExactly(row: ExecutionRow, events: seq<Event>, status: string)
    requires !Terminal(row.status)
    ensures Some(Finished(row.id, status)) in Decodes(row, events) <==> EndsFirst(events, Finished(row.id, status))
  {
    ClientReceives(row, events);
    SomesHold(ThroughFinished(events), Finished(row.id, status));
    ThroughHolds(events, Finished(row.id, status));
  }

  lemma NotFirst(events: seq<Event>, k: nat, over: Event)
    requires FirstFinish(events, k) && events[k] != over
    ensures !EndsFirst(events, over)
  {
    assert forall j: nat :: FirstFinish(events, j) ==> j == k;
  }

  // So if another execution finishes first, wherever that is, the client gets everything up to that finish and
  // never learns how its own execution ended.
  lemma OtherExecutionEndsStream(row: ExecutionRow, events: seq<Event>, k: nat)
    requires !Terminal(row.status) && FirstFinish(events, k) && events[k].execId != row.id
    ensures Decodes(row, events) == Somes(events[..k + 1])
    ensures forall status :: Some(Finished(row.id, status)) !in Decodes(row, events)
  {
    ClientReceives(row, events);
    ThroughFirst(events, k);
    forall status ensures Some(Finished(row.id, status)) !in Decodes(row, events) {
      OwnEndExactly(row, events, status);
      NotFirst(events, k, Finished(row.id, status));
    }
  }

  // ----- rebuilding outputs from what the client decodes -----

  function Decoded(got: seq<Option<Event>>): seq<Event> {
    if got == [] then [] else (if got[0].Some? then [got[0].value] else []) + Decoded(got[1..])
  }

  lemma {:induction false} DecodedSomes(events: seq<Event>)
    ensures Decoded(Somes(events)) == events
  {
    if events != [] {
      assert Somes(events)[1..] == Somes(events[1..]);
      DecodedSomes(events[1..]);
    }
  }

  // A client that connects to a lone execution before it publishes anything rebuilds, from the bytes it
  // receives, the logged output document of every successful AI step, in order.
  lemma ClientRebuildsOutputs(e: nat, w: nat, parsed: Option<seq<StepDef>>, obs: seq<Obs>, read: nat, sub: nat)
    requires parsed.Some? ==> |parsed.value| <= |obs|
    requires read <= sub <= 1
    ensures var s := Script(e, parsed, obs);
            && |s| >= 3
            && HearAll(Listener("", false, []), Decoded(Client(e, w, s, read, sub))).outputs == AiOutputs(LogsOf(s))
  {
    var s := Script(e, parsed, obs);
    ScriptReads(e, parsed, obs);
    ScriptEndsOnce(e, parsed, obs);
    StreamDelivery(e, w, parsed, obs, read, sub);
    assert s[0..] == s && s[1..] == Execute(EngineFactory, e, parsed, obs).effects;
    DecodedSomes(EventsOf(s[sub..]));
    ListenerRebuildsOutputs(e, parsed, obs);
  }
}
