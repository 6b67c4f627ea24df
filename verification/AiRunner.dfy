/** The ai_task runner: the provider's chunk stream is accumulated into one text while every
    non-empty piece is published on the workflow's channel. */
module AiRunner {
  import opened Json
  import opened Events
  import opened Sequences

  datatype Result<+T> = Ok(value: T) | Err(message: string)

  // A workflow's pub/sub channel; what is published is the serialised event.
  class EventChannel {
    var events: seq<Event>

    constructor ()
      ensures events == []
    {
      events := [];
    }

    method Publish(e: Event)
      modifies this
      ensures events == old(events) + [e]
    {
      events := events + [e];
    }
  }

  datatype AnthropicChunk = AnthropicChunk(deltaType: string, text: string)
  datatype OpenAIChunk = OpenAIChunk(choices: seq<string>)

  // What a provider streamed, and whether the stream ended in an error.
  datatype Stream =
    | Anthropic(deltas: seq<AnthropicChunk>, error: Option<string>)
    | OpenAI(chunks: seq<OpenAIChunk>, error: Option<string>)

  // The text a chunk contributes; "" when it contributes none.
  function DeltaText(c: AnthropicChunk): string {
    if c.deltaType == "text_delta" then c.text else ""
  }

  function ChoiceText(c: OpenAIChunk): string {
    if c.choices == [] then "" else c.choices[0]
  }

  function DeltaTexts(cs: seq<AnthropicChunk>): (ts: seq<string>)
    ensures |ts| == |cs| && forall k :: 0 <= k < |cs| ==> ts[k] == DeltaText(cs[k])
  {
    if cs == [] then [] else [DeltaText(cs[0])] + DeltaTexts(cs[1..])
  }

  function ChoiceTexts(cs: seq<OpenAIChunk>): (ts: seq<string>)
    ensures |ts| == |cs| && forall k :: 0 <= k < |cs| ==> ts[k] == ChoiceText(cs[k])
  {
    if cs == [] then [] else [ChoiceText(cs[0])] + ChoiceTexts(cs[1..])
  }

  function Texts(s: Stream): seq<string> {
    match s
    case Anthropic(cs, _) => DeltaTexts(cs)
    case OpenAI(cs, _) => ChoiceTexts(cs)
  }

  function Concat(ts: seq<string>): string {
    if ts == [] then "" else ts[0] + Concat(ts[1..])
  }

  // One token event per non-empty text.
  function TokenEvents(stepId: string, ts: seq<string>): seq<Event> {
    if ts == [] then []
    else (if ts[0] == "" then [] else [AiToken(stepId, ts[0], false)]) + TokenEvents(stepId, ts[1..])
  }

  // Everything one run of the step publishes: the tokens and, unless the stream failed, the end marker.
  function AiEvents(stepId: string, s: Stream): seq<Event> {
    TokenEvents(stepId, Texts(s)) + (if s.error.None? then [AiToken(stepId, "", true)] else [])
  }

  function OutputDoc(text: string): string {
    PrintObject([Member("output", Str(text))])
  }

  function StreamName(s: Stream): string {
    if s.Anthropic? then "anthropic stream: " else "openai stream: "
  }

  function AiResult(s: Stream): Result<string> {
    match s.error
    case None => Ok(OutputDoc(Concat(Texts(s))))
    case Some(e) => Err(StreamName(s) + e)
  }

  lemma {:induction false} TokenEventsSnoc(stepId: string, ts: seq<string>, t: string)
    ensures TokenEvents(stepId, ts + [t])
         == TokenEvents(stepId, ts) + if t == "" then [] else [AiToken(stepId, t, false)]
  {
    if ts == [] {
      assert ([] + [t])[1..] == [];
    } else {
      assert (ts + [t])[1..] == ts[1..] + [t];
      TokenEventsSnoc(stepId, ts[1..], t);
      Assoc(if ts[0] == "" then [] else [AiToken(stepId, ts[0], false)], TokenEvents(stepId, ts[1..]),
            if t == "" then [] else [AiToken(stepId, t, false)]);
    }
  }

  lemma {:induction false} ConcatSnoc(ts: seq<string>, t: string)
    ensures Concat(ts + [t]) == Concat(ts) + t
  {
    if ts == [] {
      assert ([] + [t])[1..] == [];
    } else {
      assert (ts + [t])[1..] == ts[1..] + [t];
      ConcatSnoc(ts[1..], t);
    }
  }

  lemma TakeNext(stepId: string, ts: seq<string>, n: nat)
    requires n < |ts|
    ensures Concat(ts[..n + 1]) == Concat(ts[..n]) + ts[n]
    ensures TokenEvents(stepId, ts[..n + 1])
         == TokenEvents(stepId, ts[..n]) + if ts[n] == "" then [] else [AiToken(stepId, ts[n], false)]
    ensures ts[n] == "" ==> Concat(ts[..n + 1]) == Concat(ts[..n])
  {
    assert ts[..n + 1] == ts[..n] + [ts[n]];
    ConcatSnoc(ts[..n], ts[n]);
    TokenEventsSnoc(stepId, ts[..n], ts[n]);
  }

  // What the first n texts publish after `before`.
  function Sent(before: seq<Event>, streaming: bool, stepId: string, ts: seq<string>, n: nat): seq<Event>
    requires n <= |ts|
  {
    before + if streaming then TokenEvents(stepId, ts[..n]) else []
  }

  lemma SentNext(before: seq<Event>, streaming: bool, stepId: string, ts: seq<string>, n: nat)
    requires n < |ts|
    ensures Sent(before, streaming, stepId, ts, n + 1)
         == Sent(before, streaming, stepId, ts, n)
            + if streaming && ts[n] != "" then [AiToken(stepId, ts[n], false)] else []
  {
    TakeNext(stepId, ts, n);
    Assoc(before, if streaming then TokenEvents(stepId, ts[..n]) else [],
          if streaming && ts[n] != "" then [AiToken(stepId, ts[n], false)] else []);
  }

  // `streaming` is false when no Redis client or channel name was supplied.
  method PublishToken(ch: EventChannel, streaming: bool, stepId: string, token: string, last: bool)
    modifies ch
    ensures ch.events == old(ch.events) + if streaming then [AiToken(stepId, token, last)] else []
  {
    if streaming {
      ch.Publish(AiToken(stepId, token, last));
    }
  }

  // The receive loop of RunAnthropic.
  method AnthropicTokens(ch: EventChannel, streaming: bool, stepId: string, deltas: seq<AnthropicChunk>)
    returns (sb: string)
    modifies ch
    ensures sb == Concat(DeltaTexts(deltas))
    ensures ch.events == old(ch.events) + if streaming then TokenEvents(stepId, DeltaTexts(deltas)) else []
  {
    sb := "";
    var n := 0;
    ghost var ts := DeltaTexts(deltas);
    while n < |deltas|
      invariant 0 <= n <= |deltas| == |ts|
      invariant sb == Concat(ts[..n])
      invariant ch.events == Sent(old(ch.events), streaming, stepId, ts, n)
    {
      TakeNext(stepId, ts, n);
      SentNext(old(ch.events), streaming, stepId, ts, n);
      var delta := deltas[n];
      if delta.deltaType == "text_delta" && delta.text != "" {
        sb := sb + delta.text;
        PublishToken(ch, streaming, stepId, delta.text, false);
      }
      n := n + 1;
    }
    assert ts[..n] == ts;
  }

  method RunAnthropic(ch: EventChannel, streaming: bool, stepId: string, s: Stream) returns (r: Result<string>)
    requires s.Anthropic?
    modifies ch
    ensures r == AiResult(s)
    ensures ch.events == old(ch.events) + if streaming then AiEvents(stepId, s) else []
  {
    var sb := AnthropicTokens(ch, streaming, stepId, s.deltas);
    if s.error.Some? {
      return Err("anthropic stream: " + s.error.value);
    }
    PublishToken(ch, streaming, stepId, "", true);
    return Ok(OutputDoc(sb));
  }

  // The receive loop of RunOpenAI.
  method OpenAITokens(ch: EventChannel, streaming: bool, stepId: string, chunks: seq<OpenAIChunk>) returns (sb: string)
    modifies ch
    ensures sb == Concat(ChoiceTexts(chunks))
    ensures ch.events == old(ch.events) + if streaming then TokenEvents(stepId, ChoiceTexts(chunks)) else []
  {
    sb := "";
    var n := 0;
    ghost var ts := ChoiceTexts(chunks);
    while n < |chunks|
      invariant 0 <= n <= |chunks| == |ts|
      invariant sb == Concat(ts[..n])
      invariant ch.events == Sent(old(ch.events), streaming, stepId, ts, n)
    {
      TakeNext(stepId, ts, n);
      SentNext(old(ch.events), streaming, stepId, ts, n);
      var chunk := chunks[n];
      if |chunk.choices| > 0 {
        var token := chunk.choices[0];
        if token != "" {
          sb := sb + token;
          PublishToken(ch, streaming, stepId, token, false);
        }
      }
      n := n + 1;
    }
    assert ts[..n] == ts;
  }

  method RunOpenAI(ch: EventChannel, streaming: bool, stepId: string, s: Stream) returns (r: Result<string>)
    requires s.OpenAI?
    modifies ch
    ensures r == AiResult(s)
    ensures ch.events == old(ch.events) + if streaming then AiEvents(stepId, s) else []
  {
    var sb := OpenAITokens(ch, streaming, stepId, s.chunks);
    if s.error.Some? {
      return Err("openai stream: " + s.error.value);
    }
    PublishToken(ch, streaming, stepId, "", true);
    return Ok(OutputDoc(sb));
  }

  // ----- what a listener can rebuild -----

  function TokenText(es: seq<Event>): string {
    if es == [] then ""
    else (if es[0].AiToken? && !es[0].last then es[0].token else "") + TokenText(es[1..])
  }

  function Markers(es: seq<Event>): nat {
    if es == [] then 0 else (if es[0].AiToken? && es[0].last then 1 else 0) + Markers(es[1..])
  }

  lemma {:induction false} TokenTextAppend(a: seq<Event>, b: seq<Event>)
    ensures TokenText(a + b) == TokenText(a) + TokenText(b)
  {
    if a == [] {
      assert a + b == b;
    } else {
      assert (a + b)[1..] == a[1..] + b;
      TokenTextAppend(a[1..], b);
    }
  }

  lemma {:induction false} MarkersAppend(a: seq<Event>, b: seq<Event>)
    ensures Markers(a + b) == Markers(a) + Markers(b)
  {
    if a == [] {
      assert a + b == b;
    } else {
      assert (a + b)[1..] == a[1..] + b;
      MarkersAppend(a[1..], b);
    }
  }

  lemma {:induction false} TokensConcat(stepId: string, ts: seq<string>)
    ensures TokenText(TokenEvents(stepId, ts)) == Concat(ts) && Markers(TokenEvents(stepId, ts)) == 0
  {
    if ts != [] {
      var head := if ts[0] == "" then [] else [AiToken(stepId, ts[0], false)];
      TokensConcat(stepId, ts[1..]);
      TokenTextAppend(head, TokenEvents(stepId, ts[1..]));
      MarkersAppend(head, TokenEvents(stepId, ts[1..]));
      assert ts[0] != "" ==> head[1..] == [];
      assert TokenText(head) == ts[0];
    }
  }

  // For either provider and any chunks: the published tokens concatenate to the streamed text, the end
  // marker is published exactly when the stream succeeded, once and as the last event, and then the
  // text is the step's output.
  lemma TokenStreamIsOutput(stepId: string, s: Stream)
    ensures var es := AiEvents(stepId, s);
            && TokenText(es) == Concat(Texts(s))
            && Markers(es) == (if s.error.None? then 1 else 0)
            && (AiResult(s).Ok? <==> es != [] && es[|es| - 1] == AiToken(stepId, "", true))
            && (AiResult(s).Ok? ==> ReadObject(AiResult(s).value) == Some([Member("output", Str(TokenText(es)))]))
  {
    var tail := if s.error.None? then [AiToken(stepId, "", true)] else [];
    TokensConcat(stepId, Texts(s));
    TokenTextAppend(TokenEvents(stepId, Texts(s)), tail);
    MarkersAppend(TokenEvents(stepId, Texts(s)), tail);
    TokensNotLast(stepId, Texts(s));
    ObjectRoundTrip([Member("output", Str(Concat(Texts(s))))]);
    if s.error.None? {
      assert tail[1..] == [];
      assert Concat(Texts(s)) + TokenText(tail) == Concat(Texts(s));
    } else {
      assert AiEvents(stepId, s) == TokenEvents(stepId, Texts(s));
    }
  }

  lemma {:induction false} TokensNotLast(stepId: string, ts: seq<string>)
    ensures forall k :: 0 <= k < |TokenEvents(stepId, ts)| ==>
              TokenEvents(stepId, ts)[k].AiToken? && !TokenEvents(stepId, ts)[k].last
  {
    if ts != [] { TokensNotLast(stepId, ts[1..]); }
  }

  // ----- from the chunks alone -----

  // The step succeeds, and its output document is one member with this text.
  predicate Returns(r: Result<string>, text: string) {
    r.Ok? && ReadObject(r.value) == Some([Member("output", Str(text))])
  }

  lemma OutputReads(s: Stream)
    requires s.error.None?
    ensures Returns(AiResult(s), Concat(Texts(s)))
  {
    ObjectRoundTrip([Member("output", Str(Concat(Texts(s))))]);
  }

  // A stream without chunks returns the empty text and publishes nothing but the end marker.
  lemma NothingStreamed(stepId: string, s: Stream)
    requires s == Anthropic([], None) || s == OpenAI([], None)
    ensures Returns(AiResult(s), "") && AiEvents(stepId, s) == [AiToken(stepId, "", true)]
  {
    OutputReads(s);
  }

  // A stream that fails after the same chunks has published the same tokens without the marker, and the step fails
  // with the provider's message.
  lemma FailingStream(stepId: string, s: Stream, e: string)
    requires s.error.None?
    ensures var t := s.(error := Some(e));
            && AiEvents(stepId, s) == AiEvents(stepId, t) + [AiToken(stepId, "", true)]
            && AiResult(t) == Err((if s.Anthropic? then "anthropic stream: " else "openai stream: ") + e)
  {
    assert AiEvents(stepId, s.(error := Some(e))) == TokenEvents(stepId, Texts(s));
  }

  lemma {:induction false} DeltasAppend(cs: seq<AnthropicChunk>, c: AnthropicChunk)
    ensures DeltaTexts(cs + [c]) == DeltaTexts(cs) + [DeltaText(c)]
  {
  }

  lemma {:induction false} ChoicesAppend(cs: seq<OpenAIChunk>, c: OpenAIChunk)
    ensures ChoiceTexts(cs + [c]) == ChoiceTexts(cs) + [ChoiceText(c)]
  {
  }

  // One more chunk: a text appends to the output and is published as one token unless it is empty.
  ghost predicate Extends(stepId: string, before: Stream, after: Stream, text: string) {
    && (forall x :: Returns(AiResult(before.(error := None)), x) ==> Returns(AiResult(after.(error := None)), x + text))
    && (text == "" ==> AiEvents(stepId, after) == AiEvents(stepId, before))
    && (text != "" ==> AiEvents(stepId, after) == AiEvents(stepId, before) + [AiToken(stepId, text, false)])
  }

  lemma OneMoreReturned(s: Stream, t: Stream, text: string)
    requires s.error.None? && t.error.None? && Texts(t) == Texts(s) + [text]
    ensures forall x :: Returns(AiResult(s), x) ==> Returns(AiResult(t), x + text)
  {
    OutputReads(s);
    OutputReads(t);
    ConcatSnoc(Texts(s), text);
  }

  lemma OneMore(stepId: string, s: Stream, t: Stream, text: string)
    requires s.error.Some? && t.error.Some? && Texts(t) == Texts(s) + [text]
    ensures Extends(stepId, s, t, text)
  {
    assert Texts(s.(error := None)) == Texts(s) && Texts(t.(error := None)) == Texts(t);
    OneMoreReturned(s.(error := None), t.(error := None), text);
    TokenEventsSnoc(stepId, Texts(s), text);
  }

  // While the stream lasts (its end aside): a chunk of type text_delta appends its text to the output and publishes it
  // as one token if it is not empty; any other chunk leaves both unchanged.
  lemma DeltaExtends(stepId: string, cs: seq<AnthropicChunk>, c: AnthropicChunk, e: string)
    ensures var s, t := Anthropic(cs, Some(e)), Anthropic(cs + [c], Some(e));
            && (c.deltaType == "text_delta" ==> Extends(stepId, s, t, c.text))
            && (c.deltaType != "text_delta" ==> Extends(stepId, s, t, ""))
  {
    DeltasAppend(cs, c);
    OneMore(stepId, Anthropic(cs, Some(e)), Anthropic(cs + [c], Some(e)), DeltaText(c));
  }

  // The same with the first choice of a chunk, or nothing if it has none.
  lemma ChoiceExtends(stepId: string, cs: seq<OpenAIChunk>, c: OpenAIChunk, e: string)
    ensures var s, t := OpenAI(cs, Some(e)), OpenAI(cs + [c], Some(e));
            && (c.choices != [] ==> Extends(stepId, s, t, c.choices[0]))
            && (c.choices == [] ==> Extends(stepId, s, t, ""))
  {
    ChoicesAppend(cs, c);
    OneMore(stepId, OpenAI(cs, Some(e)), OpenAI(cs + [c], Some(e)), ChoiceText(c));
  }

  // If every chunk is text, the output is the chunks' texts in order.
  lemma AllTextIsReturned(cs: seq<AnthropicChunk>, texts: seq<string>)
    requires |texts| == |cs| && forall k :: 0 <= k < |cs| ==> cs[k] == AnthropicChunk("text_delta", texts[k])
    ensures Returns(AiResult(Anthropic(cs, None)), Concat(texts))
  {
    OutputReads(Anthropic(cs, None));
    DeltasAre(cs, texts);
  }

  lemma DeltasAre(cs: seq<AnthropicChunk>, texts: seq<string>)
    requires |texts| == |cs| && forall k :: 0 <= k < |cs| ==> DeltaText(cs[k]) == texts[k]
    ensures DeltaTexts(cs) == texts
  {
  }

  lemma AllChoicesAreReturned(cs: seq<OpenAIChunk>, texts: seq<string>)
    requires |texts| == |cs|
    requires forall k :: 0 <= k < |cs| ==> cs[k].choices != [] && cs[k].choices[0] == texts[k]
    ensures Returns(AiResult(OpenAI(cs, None)), Concat(texts))
  {
    OutputReads(OpenAI(cs, None));
    ChoicesAre(cs, texts);
  }

  lemma ChoicesAre(cs: seq<OpenAIChunk>, texts: seq<string>)
    requires |texts| == |cs| && forall k :: 0 <= k < |cs| ==> ChoiceText(cs[k]) == texts[k]
    ensures ChoiceTexts(cs) == texts
  {
  }
}
