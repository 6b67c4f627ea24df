/** The execution stream handler: one database read, then the subscription loop that copies
    channel messages to the response until the finished event. */
module StreamHandler {
  import opened Json
  import opened Sequences
  import opened Events
  import opened Sse

  datatype ExecutionRow = ExecutionRow(id: nat, workflowId: nat, status: string)

  // The event text the handler formats itself when the execution is already over.
  function OwnPayload(id: nat, status: string): string {
    "{\"type\":\"finished\",\"executionId\":" + Itoa(id) + ",\"status\":\"" + status + "\"}"
  }

  // What a subscription with these messages still to come forwards: everything through the first
  // message that passes the end test.
  function Forwarded(messages: seq<string>): (f: seq<string>)
    ensures |f| <= |messages| && f == messages[..|f|]
    ensures forall k :: 0 <= k < |f| - 1 ==> !IsFinished(messages[k])
    ensures |f| < |messages| ==> f != [] && IsFinished(messages[|f| - 1])
  {
    if messages == [] then []
    else if IsFinished(messages[0]) then [messages[0]]
    else [messages[0]] + Forwarded(messages[1..])
  }

  datatype Outcome = NotFound | AlreadyOver | NoFlusher | Ended | Interrupted

  // An error answer: the framework's for a failed request, or a plain internal server error.
  datatype Failure = RequestError(message: string) | InternalError(message: string)

  class ResponseWriter {
    const flusher: bool
    var body: string
    var failure: Option<Failure>

    constructor (flusher: bool)
      ensures this.flusher == flusher && body == "" && failure == None
    {
      this.flusher, body, failure := flusher, "", None;
    }

    method Fail(f: Failure)
      modifies this`failure
      ensures failure == Some(f)
    {
      failure := Some(f);
    }

    method Write(text: string)
      modifies this`body
      ensures body == old(body) + text
    {
      body := body + text;
    }
  }

  lemma {:induction false} FramesSnoc(payloads: seq<string>, p: string)
    ensures Frames(payloads + [p]) == Frames(payloads) + Frame(p)
  {
    if payloads == [] {
      assert ([] + [p])[1..] == [];
    } else {
      assert (payloads + [p])[1..] == payloads[1..] + [p];
      FramesSnoc(payloads[1..], p);
    }
  }

  lemma FramesThrough(messages: seq<string>, n: nat, before: string)
    requires n < |messages|
    ensures before + Frames(messages[..n]) + Frame(messages[n]) == before + Frames(messages[..n + 1])
  {
    FramesSnoc(messages[..n], messages[n]);
    PrefixSnoc(messages, n);
    Assoc(before, Frames(messages[..n]), Frame(messages[n]));
  }

  lemma {:induction false} ForwardedStops(messages: seq<string>, n: nat)
    requires n < |messages| && IsFinished(messages[n])
    requires forall k :: 0 <= k < n ==> !IsFinished(messages[k])
    ensures Forwarded(messages) == messages[..n + 1]
  {
    if n > 0 {
      ForwardedStops(messages[1..], n - 1);
      assert messages[..n + 1] == [messages[0]] + messages[1..][..n];
    }
  }

  lemma {:induction false} ForwardedAll(messages: seq<string>)
    requires forall k :: 0 <= k < |messages| ==> !IsFinished(messages[k])
    ensures Forwarded(messages) == messages
  {
    if messages != [] { ForwardedAll(messages[1..]); }
  }

  function Response(row: Option<ExecutionRow>, messages: seq<string>): string {
    match row
    case None => ""
    case Some(ex) =>
      if Terminal(ex.status) then Frame(OwnPayload(ex.id, ex.status)) else Frames(Forwarded(messages))
  }

  // The forwarding loop.
  method Forward(w: ResponseWriter, messages: seq<string>) returns (ended: bool)
    modifies w`body
    ensures w.body == old(w.body) + Frames(Forwarded(messages))
    ensures ended <==> exists k :: 0 <= k < |messages| && IsFinished(messages[k])
  {
    var n := 0;
    while n < |messages|
      invariant 0 <= n <= |messages|
      invariant w.body == old(w.body) + Frames(messages[..n])
      invariant forall k :: 0 <= k < n ==> !IsFinished(messages[k])
    {
      FramesThrough(messages, n, old(w.body));
      w.Write(Frame(messages[n]));
      if IsFinished(messages[n]) {
        ForwardedStops(messages, n);
        return true;
      }
      n := n + 1;
    }
    ForwardedAll(messages);
    assert messages[..n] == messages;
    return false;
  }

  // `row` is the one database read made before subscribing; `messages` are the payloads delivered to
  // the subscription before the client disconnects or the channel closes.
  method ExecutionStream(w: ResponseWriter, row: Option<ExecutionRow>, messages: seq<string>) returns (o: Outcome)
    modifies w
    ensures w.body == old(w.body) + if o == NoFlusher then "" else Response(row, messages)
    ensures w.failure == if o == NotFound then Some(RequestError("execution not found"))
                         else if o == NoFlusher then Some(InternalError("streaming not supported"))
                         else old(w.failure)
    ensures o == NotFound <==> row == None
    ensures o == AlreadyOver <==> row.Some? && Terminal(row.value.status)
    ensures o == NoFlusher <==> row.Some? && !Terminal(row.value.status) && !w.flusher
    ensures o == Ended <==> row.Some? && !Terminal(row.value.status) && w.flusher &&
                            exists k :: 0 <= k < |messages| && IsFinished(messages[k])
  {
    if row == None {
      w.Fail(RequestError("execution not found"));
      return NotFound;
    }
    var ex := row.value;
    if Terminal(ex.status) {
      w.Write(Frame(OwnPayload(ex.id, ex.status)));
      return AlreadyOver;
    }
    if !w.flusher {
      w.Fail(InternalError("streaming not supported"));
      return NoFlusher;
    }
    var ended := Forward(w, messages);
    return if ended then Ended else Interrupted;
  }

  // ----- what the client makes of it -----

  function Payloads(events: seq<Event>): (p: seq<string>)
    ensures |p| == |events| && forall k :: 0 <= k < |p| ==> p[k] == Serialise(events[k])
  {
    if events == [] then []
    else
      var first := Serialise(events[0]);
      [first] + Payloads(events[1..])
  }

  function ThroughFinished(events: seq<Event>): seq<Event> {
    if events == [] then []
    else if events[0].Finished? then [events[0]]
    else [events[0]] + ThroughFinished(events[1..])
  }

  function Received(messages: seq<Message>): seq<Option<Event>> {
    if messages == [] then [] else [Decode(messages[0].data)] + Received(messages[1..])
  }

  function Somes(events: seq<Event>): seq<Option<Event>> {
    if events == [] then [] else [Some(events[0])] + Somes(events[1..])
  }

  lemma {:induction false} ThroughIsPrefix(events: seq<Event>)
    ensures |ThroughFinished(events)| <= |events| && ThroughFinished(events) == events[..|ThroughFinished(events)|]
  {
    if events != [] && !events[0].Finished? {
      ThroughIsPrefix(events[1..]);
      PrefixCons(events, |ThroughFinished(events[1..])|);
    }
  }

  // Texts that pass the end test exactly where the events are finishes are forwarded as far.
  lemma {:induction false} ForwardedAsFar(texts: seq<string>, events: seq<Event>)
    requires |texts| == |events| && forall k :: 0 <= k < |texts| ==> (IsFinished(texts[k]) <==> events[k].Finished?)
    ensures |Forwarded(texts)| == |ThroughFinished(events)|
  {
    if texts != [] && !events[0].Finished? { ForwardedAsFar(texts[1..], events[1..]); }
  }

  lemma ForwardedEvents(events: seq<Event>)
    ensures Forwarded(Payloads(events)) == Payloads(ThroughFinished(events))
  {
    forall k | 0 <= k < |events| ensures IsFinished(Payloads(events)[k]) <==> events[k].Finished? {
      IsFinishedExact(events[k]);
    }
    ForwardedAsFar(Payloads(events), events);
    ThroughIsPrefix(events);
  }

  lemma {:induction false} ReceivedBack(events: seq<Event>)
    ensures Received(Messages(Payloads(events))) == Somes(events)
  {
    if events != [] {
      EventRoundTrip(events[0]);
      assert Payloads(events)[1..] == Payloads(events[1..]);
      assert Messages(Payloads(events))[1..] == Messages(Payloads(events[1..]));
      ReceivedBack(events[1..]);
    }
  }

  // End to end: the subscriber of a running execution decodes exactly the published events, from its
  // subscription through the first finished event, whatever step ids and token texts they carry.
  lemma ClientReceives(row: ExecutionRow, events: seq<Event>)
    requires !Terminal(row.status)
    ensures Received(ParseStream(Response(Some(row), Payloads(events)))) == Somes(ThroughFinished(events))
  {
    ForwardedEvents(events);
    var sent := ThroughFinished(events);
    forall k | 0 <= k < |sent| ensures OneLine(Payloads(sent)[k]) {
      SerialisedOneLine(sent[k]);
    }
    StreamRoundTrip(Payloads(sent));
    ReceivedBack(sent);
  }

  predicate Letters(s: string) {
    forall j :: 0 <= j < |s| ==> 'a' <= s[j] <= 'z' || 'A' <= s[j] <= 'Z'
  }

  lemma {:induction false} LetterBody(s: string)
    requires Letters(s)
    ensures Escape(s) == s
  {
    if s != "" {
      LetterBody(s[1..]);
      assert Escape1(s[0]) == [s[0]];
    }
  }

  lemma LetterQuote(s: string)
    requires Letters(s)
    ensures Quote(s) == ['"'] + s + ['"']
  {
    LetterBody(s);
  }

  function MemberText(m: Member): string {
    Quote(m.key) + [':'] + PrintValue(m.value)
  }

  lemma ThreeMembers(a: Member, b: Member, c: Member)
    ensures PrintObject([a, b, c])
         == ['{'] + (MemberText(a) + ([','] + (MemberText(b) + ([','] + (MemberText(c) + ['}'])))))
  {
    assert [a, b, c][1..] == [b, c] && [b, c][1..] == [c];
    assert PrintMembers([c]) == MemberText(c) + ['}'];
    assert PrintMembers([b, c]) == MemberText(b) + ([','] + PrintMembers([c]));
    assert PrintMembers([a, b, c]) == MemberText(a) + ([','] + PrintMembers([b, c]));
  }

  lemma Flatten(a: string, b: string, c: string)
    ensures ['{'] + (a + ([','] + (b + ([','] + (c + ['}']))))) == ['{'] + a + [','] + b + [','] + c + ['}']
  {
  }

  lemma JoinHead(k1: string, t1: string, k2: string, d: string)
    ensures ['{'] + (['"'] + k1 + ['"'] + [':'] + (['"'] + t1 + ['"'])) + [','] + (['"'] + k2 + ['"'] + [':'] + d)
         == ['{', '"'] + k1 + ['"', ':', '"'] + t1 + ['"', ',', '"'] + k2 + ['"', ':'] + d
  {
  }

  lemma JoinTail(head: string, k3: string, t3: string)
    ensures head + [','] + (['"'] + k3 + ['"'] + [':'] + (['"'] + t3 + ['"'])) + ['}']
         == head + ([',', '"'] + k3 + ['"', ':', '"']) + t3 + ['"', '}']
  {
  }

  lemma LetterMember(key: string, text: string)
    requires Letters(key) && Letters(text)
    ensures MemberText(Member(key, Str(text))) == ['"'] + key + ['"'] + [':'] + (['"'] + text + ['"'])
  {
    LetterQuote(key);
    LetterQuote(text);
  }

  lemma LetterObject(k1: string, t1: string, k2: string, n: nat, k3: string, t3: string)
    requires Letters(k1) && Letters(t1) && Letters(k2) && Letters(k3) && Letters(t3)
    ensures PrintObject([Member(k1, Str(t1)), Member(k2, Num(n)), Member(k3, Str(t3))])
         == ['{', '"'] + k1 + ['"', ':', '"'] + t1 + ['"', ',', '"'] + k2 + ['"', ':'] + Itoa(n)
            + ([',', '"'] + k3 + ['"', ':', '"']) + t3 + ['"', '}']
  {
    var a, b, c := Member(k1, Str(t1)), Member(k2, Num(n)), Member(k3, Str(t3));
    ThreeMembers(a, b, c);
    Flatten(MemberText(a), MemberText(b), MemberText(c));
    LetterMember(k1, t1);
    LetterQuote(k2);
    LetterMember(k3, t3);
    JoinHead(k1, t1, k2, Itoa(n));
    JoinTail(['{', '"'] + k1 + ['"', ':', '"'] + t1 + ['"', ',', '"'] + k2 + ['"', ':'] + Itoa(n), k3, t3);
  }

  lemma HeadText(k1: string, t1: string, k2: string)
    requires k1 == "type" && t1 == "finished" && k2 == "executionId"
    ensures "{\"type\":\"finished\",\"executionId\":"
         == ['{', '"'] + k1 + ['"', ':', '"'] + t1 + ['"', ',', '"'] + k2 + ['"', ':']
  {
  }

  lemma MiddleText(k3: string)
    requires k3 == "status"
    ensures ",\"status\":\"" == [',', '"'] + k3 + ['"', ':', '"']
  {
  }

  // The text the handler formats by hand is the text the engine would have published.
  lemma OwnPayloadIsPublished(id: nat, status: string)
    requires Terminal(status)
    ensures OwnPayload(id, status) == Serialise(Finished(id, status))
  {
    LetterObject("type", "finished", "executionId", id, "status", status);
    HeadText("type", "finished", "executionId");
    MiddleText("status");
    assert "\"}" == ['"', '}'];
  }
}
