/** The events published on a workflow's channel, their JSON text, and the stream handler's
    substring test for the end of a stream. */
module Events {
  import opened Json

  // The statuses that end an execution.
  predicate Terminal(status: string) {
    status == "success" || status == "failed"
  }

  datatype Event =
    | StepDone(execId: nat, stepId: string, status: string, durationMs: nat)
    | Finished(execId: nat, status: string)
    | AiToken(stepId: string, token: string, last: bool)

  // Zero-valued stepId and durationMs are left out of the text.
  function ToMembers(e: Event): (ms: seq<Member>)
    ensures ms != []
  {
    match e
    case StepDone(x, step, status, ms) =>
      [Member("type", Str("step_done")), Member("executionId", Num(x))]
      + (if step == "" then [] else [Member("stepId", Str(step))])
      + [Member("status", Str(status))]
      + (if ms == 0 then [] else [Member("durationMs", Num(ms))])
    case Finished(x, status) =>
      [Member("type", Str("finished")), Member("executionId", Num(x)), Member("status", Str(status))]
    case AiToken(step, token, last) =>
      [Member("type", Str("ai_token")), Member("stepId", Str(step)), Member("token", Str(token)),
       Member("finished", Bool(last))]
  }

  function Serialise(e: Event): string {
    PrintObject(ToMembers(e))
  }

  // ----- a subscriber's view of a payload -----

  function Find(ms: seq<Member>, key: string): Option<Value> {
    if ms == [] then None
    else if ms[0].key == key then Some(ms[0].value)
    else Find(ms[1..], key)
  }

  function Text(v: Option<Value>): string {
    match v case Some(Str(s)) => s case _ => ""
  }

  function Number(v: Option<Value>): nat {
    match v case Some(Num(n)) => n case _ => 0
  }

  function FromMembers(ms: seq<Member>): Option<Event> {
    match Find(ms, "type")
    case Some(Str(kind)) =>
      if kind == "step_done" then
        Some(StepDone(Number(Find(ms, "executionId")), Text(Find(ms, "stepId")), Text(Find(ms, "status")),
                      Number(Find(ms, "durationMs"))))
      else if kind == "finished" then
        Some(Finished(Number(Find(ms, "executionId")), Text(Find(ms, "status"))))
      else if kind == "ai_token" then
        Some(AiToken(Text(Find(ms, "stepId")), Text(Find(ms, "token")), Find(ms, "finished") == Some(Bool(true))))
      else None
    case _ => None
  }

  function Decode(payload: string): Option<Event> {
    match ReadObject(payload)
    case None => None
    case Some(ms) => FromMembers(ms)
  }

  lemma {:induction false} FindAt(ms: seq<Member>, j: nat)
    requires j < |ms| && forall l :: 0 <= l < j ==> ms[l].key != ms[j].key
    ensures Find(ms, ms[j].key) == Some(ms[j].value)
  {
    if j > 0 { FindAt(ms[1..], j - 1); }
  }

  lemma {:induction false} FindMissing(ms: seq<Member>, key: string)
    requires forall l :: 0 <= l < |ms| ==> ms[l].key != key
    ensures Find(ms, key) == None
  {
    if ms != [] { FindMissing(ms[1..], key); }
  }

  lemma StepDoneFields(e: Event)
    requires e.StepDone?
    ensures var ms := ToMembers(e);
            Find(ms, "type") == Some(Str("step_done")) && Number(Find(ms, "executionId")) == e.execId &&
            Text(Find(ms, "stepId")) == e.stepId && Text(Find(ms, "status")) == e.status &&
            Number(Find(ms, "durationMs")) == e.durationMs
  {
    var ms := ToMembers(e);
    FindAt(ms, 0);
    FindAt(ms, 1);
    var at := if e.stepId == "" then 2 else 3;
    assert ms[at] == Member("status", Str(e.status));
    FindAt(ms, at);
    if e.stepId == "" { FindMissing(ms, "stepId"); } else { FindAt(ms, 2); }
    if e.durationMs == 0 { FindMissing(ms, "durationMs"); } else { FindAt(ms, at + 1); }
  }

  lemma FromToMembers(e: Event)
    ensures FromMembers(ToMembers(e)) == Some(e)
  {
    var ms := ToMembers(e);
    if e.StepDone? {
      StepDoneFields(e);
    } else {
      FindAt(ms, 0);
      FindAt(ms, 1);
      FindAt(ms, 2);
      if e.AiToken? { FindAt(ms, 3); }
    }
  }

  // A subscriber recovers every event exactly, whatever step ids, statuses and tokens it carries.
  lemma EventRoundTrip(e: Event)
    ensures Decode(Serialise(e)) == Some(e)
  {
    ObjectRoundTrip(ToMembers(e));
    FromToMembers(e);
  }

  lemma SerialisedOneLine(e: Event)
    ensures OneLine(Serialise(e))
  {
    MembersOneLine(ToMembers(e));
  }

  // ----- end-of-stream detection -----

  predicate At(text: string, pattern: string, i: nat) {
    i + |pattern| <= |text| && text[i..i + |pattern|] == pattern
  }

  predicate Contains(text: string, pattern: string) {
    exists i: nat | i <= |text| :: At(text, pattern, i)
  }

  const COMPACT := "\"type\":\"finished\""
  const SPACED := "\"type\": \"finished\""

  predicate IsFinished(payload: string) {
    Contains(payload, COMPACT) || Contains(payload, SPACED)
  }

  // The two searched texts, character by character: the key with its colon, then the value.
  predicate KeyAt(t: string, i: nat) {
    i + 7 <= |t| && t[i] == '"' && t[i + 1] == 't' && t[i + 2] == 'y' && t[i + 3] == 'p' && t[i + 4] == 'e' &&
    t[i + 5] == '"' && t[i + 6] == ':'
  }

  predicate ValueAt(t: string, i: nat) {
    i + 10 <= |t| && t[i] == '"' && t[i + 1] == 'f' && t[i + 2] == 'i' && t[i + 3] == 'n' && t[i + 4] == 'i' &&
    t[i + 5] == 's' && t[i + 6] == 'h' && t[i + 7] == 'e' && t[i + 8] == 'd' && t[i + 9] == '"'
  }

  predicate Hit(t: string, i: nat) {
    KeyAt(t, i) && i + 7 < |t| && (ValueAt(t, i + 7) || (t[i + 7] == ' ' && ValueAt(t, i + 8)))
  }

  lemma CompactAt(t: string, i: nat)
    ensures At(t, COMPACT, i) <==> KeyAt(t, i) && ValueAt(t, i + 7)
  {
    if KeyAt(t, i) && ValueAt(t, i + 7) {
      assert t[i..i + 17] == COMPACT;
    }
    if At(t, COMPACT, i) {
      assert forall j :: 0 <= j < 17 ==> t[i..i + 17][j] == COMPACT[j];
      assert forall j :: i <= j < i + 17 ==> t[j] == t[i..i + 17][j - i];
    }
  }

  lemma SpacedAt(t: string, i: nat)
    ensures At(t, SPACED, i) <==> KeyAt(t, i) && i + 7 < |t| && t[i + 7] == ' ' && ValueAt(t, i + 8)
  {
    if KeyAt(t, i) && i + 7 < |t| && t[i + 7] == ' ' && ValueAt(t, i + 8) {
      assert t[i..i + 18] == SPACED;
    }
    if At(t, SPACED, i) {
      assert forall j :: 0 <= j < 18 ==> t[i..i + 18][j] == SPACED[j];
      assert forall j :: i <= j < i + 18 ==> t[j] == t[i..i + 18][j - i];
    }
  }

  predicate HasHit(t: string) {
    exists i: nat | i < |t| :: Hit(t, i)
  }

  lemma IsFinishedHit(t: string)
    ensures IsFinished(t) <==> HasHit(t)
  {
    if IsFinished(t) {
      var i: nat :| i <= |t| && (At(t, COMPACT, i) || At(t, SPACED, i));
      CompactAt(t, i);
      SpacedAt(t, i);
      assert Hit(t, i);
    }
    if i: nat :| i < |t| && Hit(t, i) {
      CompactAt(t, i);
      SpacedAt(t, i);
    }
  }

  lemma HitShift(a: string, b: string, i: nat)
    requires i >= |a|
    ensures Hit(a + b, i) <==> Hit(b, i - |a|)
  {
    var t := a + b;
    assert forall j :: |a| <= j < |t| ==> t[j] == b[j - |a|];
  }

  lemma HasHitRight(a: string, b: string)
    requires HasHit(b)
    ensures HasHit(a + b)
  {
    var i: nat :| i < |b| && Hit(b, i);
    HitShift(a, b, |a| + i);
    assert Hit(a + b, |a| + i);
  }

  lemma HasHitAfter(c: char, b: string)
    requires c != '"'
    ensures HasHit([c] + b) <==> HasHit(b)
  {
    if i: nat :| i < |[c] + b| && Hit([c] + b, i) {
      assert i > 0;
      HitShift([c], b, i);
    }
    if HasHit(b) { HasHitRight([c], b); }
  }

  // A quoted body: every quote in it follows a backslash.
  predicate BodyText(e: string) {
    forall j :: 0 <= j < |e| && e[j] == '"' ==> j > 0 && e[j - 1] == '\\'
  }

  lemma {:induction false} EscapedBody(s: string)
    ensures BodyText(Escape(s))
  {
    if s != "" {
      var h := Escape1(s[0]);
      var t := Escape(s[1..]);
      EscapedBody(s[1..]);
      forall j | 0 <= j < |h + t| && (h + t)[j] == '"' ensures j > 0 && (h + t)[j - 1] == '\\' {
        if j >= |h| { assert t[j - |h|] == '"'; }
      }
    }
  }

  lemma {:induction false} PlainBody(s: string)
    requires '"' !in s
    ensures '"' !in Escape(s)
  {
    if s != "" {
      assert s[0] in s && '"' !in s[1..];
      PlainBody(s[1..]);
    }
  }

  lemma {:induction false} WordBody(s: string)
    requires forall j :: 0 <= j < |s| ==> 'a' <= s[j] <= 'z'
    ensures Escape(s) == s
  {
    if s != "" {
      WordBody(s[1..]);
      assert Escape1(s[0]) == [s[0]];
    }
  }

  lemma WordUnescaped(s: string, word: string)
    requires forall j :: 0 <= j < |word| ==> 'a' <= word[j] <= 'z'
    requires Escape(s) == word
    ensures s == word
  {
    WordBody(word);
    EscapeInjective(s, word);
  }

  predicate ValueText(v: string) {
    && v != ""
    && ('"' in v ==> |v| >= 2 && v[0] == '"' && v[|v| - 1] == '"' && BodyText(v[1..|v| - 1]))
    && v[0] != ' '
  }

  lemma PrintedValueText(value: Value)
    ensures ValueText(PrintValue(value))
    ensures '"' in PrintValue(value) ==> value.Str?
  {
    match value
    case Num(n) => ItoaDigits(n);
    case Bool(_) =>
    case Str(s) =>
      EscapedBody(s);
      assert Quote(s)[1..|Quote(s)| - 1] == Escape(s);
  }

  // A searched text cannot start inside a member except at its key, and then the key is `type`.
  lemma HitInMember(key: string, v: string, rest: string, i: nat)
    requires '"' !in key && ValueText(v)
    requires rest != "" && (rest[0] == ',' || rest[0] == '}')
    requires i < |key| + 3 + |v|
    ensures Hit(['"'] + key + ['"'] + [':'] + v + rest, i) ==> i == 0 && key == "type"
  {
    var t := ['"'] + key + ['"'] + [':'] + v + rest;
    var q := |key| + 1;
    var c := q + 1 + |v|;
    assert t[0] == '"' && t[q] == '"' && t[q + 1] == ':' && t[c + 1] == rest[0];
    assert forall j :: 0 < j < q ==> t[j] == key[j - 1] && t[j] in key;
    assert forall j :: q + 2 <= j <= c ==> t[j] == v[j - q - 2] && t[j] in v;
    if '"' in v {
      var b := v[1..|v| - 1];
      assert t[c] == '"';
      assert forall j :: q + 3 <= j < c ==> t[j] == b[j - q - 3];
      assert forall j :: q + 3 <= j < c && t[j] == '"' ==> j > q + 3 && t[j - 1] == '\\';
    }
    if i == 0 && Hit(t, i) {
      assert q == 5;
      assert key == "type";
    }
  }

  // After the key `type`, only the text value `finished` completes a searched text.
  lemma HitValue(v: string, rest: string)
    requires ValueText(v)
    requires v[0] == ' ' || ValueAt(v + rest, 0)
    ensures v == ['"'] + "finished" + ['"']
  {
    var t := v + rest;
    assert t[0] == v[0] && '"' in v;
    var b := v[1..|v| - 1];
    var c := |v| - 1;
    assert t[c] == '"';
    assert forall j :: 1 <= j < c ==> t[j] == b[j - 1];
    assert forall j :: 1 <= j < c && t[j] == '"' ==> j > 1 && t[j - 1] == '\\';
    assert c == 9;
    assert v[1] == t[1] && v[2] == t[2] && v[3] == t[3] && v[4] == t[4] && v[5] == t[5];
  }

  predicate PlainKeys(ms: seq<Member>) {
    forall j :: 0 <= j < |ms| ==> '"' !in ms[j].key
  }

  lemma KeyOfHit(m: Member, rest: string, i: nat)
    requires '"' !in m.key && rest != "" && (rest[0] == ',' || rest[0] == '}')
    requires i < |Escape(m.key)| + 3 + |PrintValue(m.value)|
    requires Hit(Quote(m.key) + [':'] + PrintValue(m.value) + rest, i)
    ensures i == 0 && m.key == "type" && |Escape(m.key)| == 4
  {
    PlainBody(m.key);
    PrintedValueText(m.value);
    HitInMember(Escape(m.key), PrintValue(m.value), rest, i);
    WordUnescaped(m.key, "type");
  }

  lemma TextOfValue(value: Value)
    requires PrintValue(value) == ['"'] + "finished" + ['"']
    ensures value == Str("finished")
  {
    PrintedValueText(value);
    var v := PrintValue(value);
    assert v[0] == '"';
    assert v[1..|v| - 1] == Escape(value.s);
    assert v[1..|v| - 1] == "finished";
    WordUnescaped(value.s, "finished");
  }

  lemma HitInHead(m: Member, rest: string, i: nat)
    requires '"' !in m.key && rest != "" && (rest[0] == ',' || rest[0] == '}')
    requires i < |Escape(m.key)| + 3 + |PrintValue(m.value)|
    requires Hit(Quote(m.key) + [':'] + PrintValue(m.value) + rest, i)
    ensures m == Member("type", Str("finished"))
  {
    KeyOfHit(m, rest, i);
    PrintedValueText(m.value);
    ValueAfterKey(Escape(m.key), PrintValue(m.value), rest);
    HitValue(PrintValue(m.value), rest);
    TextOfValue(m.value);
  }

  lemma ValueAfterKey(key: string, v: string, rest: string)
    requires |key| == 4 && v != "" && Hit(['"'] + key + ['"'] + [':'] + v + rest, 0)
    ensures v[0] == ' ' || ValueAt(v + rest, 0)
  {
    var t := ['"'] + key + ['"'] + [':'] + v + rest;
    assert forall j :: 7 <= j < |t| ==> t[j] == (v + rest)[j - 7];
  }

  lemma HitText(key: string, word: string, rest: string)
    requires key == "type" && word == "finished"
    ensures Hit(['"'] + key + ['"'] + [':'] + (['"'] + word + ['"']) + rest, 0)
  {
    var t := ['"'] + key + ['"'] + [':'] + (['"'] + word + ['"']) + rest;
    assert forall j :: 8 <= j < 16 ==> t[j] == word[j - 8];
    assert KeyAt(t, 0);
    assert ValueAt(t, 7);
  }

  lemma FinishedHit(m: Member, rest: string)
    requires m == Member("type", Str("finished"))
    ensures Hit(Quote(m.key) + [':'] + PrintValue(m.value) + rest, 0)
  {
    WordBody(m.key);
    WordBody(m.value.s);
    HitText(m.key, m.value.s, rest);
  }

  lemma HitsOfMember(m: Member, tail: string)
    requires '"' !in m.key && tail != "" && (tail[0] == ',' || tail[0] == '}')
    ensures HasHit(Quote(m.key) + [':'] + PrintValue(m.value) + tail)
       <==> m == Member("type", Str("finished")) || HasHit(tail)
  {
    var front := Quote(m.key) + [':'] + PrintValue(m.value);
    if m == Member("type", Str("finished")) {
      FinishedHit(m, tail);
    } else if HasHit(tail) {
      HasHitRight(front, tail);
    } else if i: nat :| i < |front + tail| && Hit(front + tail, i) {
      if i < |front| { HitInHead(m, tail, i); } else { HitShift(front, tail, i); }
      assert false;
    }
  }

  lemma NoHitInBrace()
    ensures !HasHit(['}'])
  {
  }

  lemma MemberOfCons(goal: Member, ms: seq<Member>)
    requires |ms| > 1
    ensures goal in ms <==> goal == ms[0] || goal in ms[1..]
  {
    assert ms == [ms[0]] + ms[1..];
  }

  lemma PlainRest(ms: seq<Member>)
    requires ms != [] && PlainKeys(ms)
    ensures PlainKeys(ms[1..])
  {
  }

  lemma HitsOfFirst(ms: seq<Member>)
    requires |ms| > 1 && PlainKeys(ms)
    ensures HasHit(PrintMembers(ms)) <==> ms[0] == Member("type", Str("finished")) || HasHit(PrintMembers(ms[1..]))
  {
    var later := PrintMembers(ms[1..]);
    HitsOfMember(ms[0], [','] + later);
    HasHitAfter(',', later);
  }

  lemma HitsOfLast(ms: seq<Member>)
    requires |ms| == 1 && PlainKeys(ms)
    ensures HasHit(PrintMembers(ms)) <==> Member("type", Str("finished")) in ms
  {
    HitsOfMember(ms[0], ['}']);
    NoHitInBrace();
  }

  lemma {:induction false} HitsOfMembers(ms: seq<Member>, goal: Member)
    requires ms != [] && PlainKeys(ms) && goal == Member("type", Str("finished"))
    ensures HasHit(PrintMembers(ms)) <==> goal in ms
  {
    if |ms| == 1 {
      HitsOfLast(ms);
    } else {
      HitsOfFirst(ms);
      PlainRest(ms);
      HitsOfMembers(ms[1..], goal);
      MemberOfCons(goal, ms);
    }
  }

  // The substring test decides, for any compactly printed object whose keys hold no quote, exactly
  // whether the object has the member "type":"finished"; no text inside a value can fake or hide it.
  lemma SubstringTestExact(ms: seq<Member>)
    requires ms != [] && PlainKeys(ms)
    ensures IsFinished(PrintObject(ms)) <==> Member("type", Str("finished")) in ms
  {
    IsFinishedHit(PrintObject(ms));
    HasHitAfter('{', PrintMembers(ms));
    HitsOfMembers(ms, Member("type", Str("finished")));
  }

  predicate FieldName(key: string) {
    key == "executionId" || key == "stepId" || key == "status" || key == "durationMs" || key == "token" ||
    key == "finished"
  }

  lemma FieldNamePlain(key: string)
    requires FieldName(key)
    ensures '"' !in key && key != "type"
  {
  }

  lemma FieldsOf(e: Event)
    ensures ToMembers(e)[0].key == "type"
    ensures forall j :: 1 <= j < |ToMembers(e)| ==> FieldName(ToMembers(e)[j].key)
  {
  }

  lemma KeysOf(e: Event)
    ensures PlainKeys(ToMembers(e))
    ensures forall j :: 1 <= j < |ToMembers(e)| ==> ToMembers(e)[j].key != "type"
  {
    var ms := ToMembers(e);
    FieldsOf(e);
    forall j | 0 <= j < |ms| ensures '"' !in ms[j].key && (j > 0 ==> ms[j].key != "type") {
      if j > 0 { FieldNamePlain(ms[j].key); }
    }
  }

  lemma TypeOf(e: Event)
    ensures e.Finished? <==> ToMembers(e)[0].value == Str("finished")
  {
  }

  // For everything the publishers emit, the stream handler's test means "this is the finished event".
  lemma IsFinishedExact(e: Event)
    ensures IsFinished(Serialise(e)) <==> e.Finished?
  {
    var ms := ToMembers(e);
    KeysOf(e);
    FieldsOf(e);
    TypeOf(e);
    SubstringTestExact(ms);
    assert ms[0] in ms;
  }

  lemma EscapeQuoteFirst(s: string)
    ensures Escape(['"'] + s) == ['\\', '"'] + Escape(s)
  {
    var t := ['"'] + s;
    assert t[1..] == s;
    assert Escape1('"') == ['\\', '"'];
  }

  lemma RegroupFront(e: string, v: string)
    ensures ['{'] + (['"'] + (['\\', '"'] + e) + ['"'] + [':'] + v + ['}'])
         == ['{', '"', '\\'] + (['"'] + e + ['"'] + [':'] + v + ['}'])
  {
  }

  lemma HitBehindQuote(m: Member)
    requires Hit(Quote(m.key) + [':'] + PrintValue(m.value) + ['}'], 0)
    ensures IsFinished(PrintObject([Member(['"'] + m.key, m.value)]))
  {
    var ms := [Member(['"'] + m.key, m.value)];
    var body := Quote(m.key) + [':'] + PrintValue(m.value) + ['}'];
    var front := ['{', '"', '\\'];
    EscapeQuoteFirst(m.key);
    RegroupFront(Escape(m.key), PrintValue(m.value));
    assert PrintObject(ms) == front + body;
    HasHitRight(front, body);
    IsFinishedHit(front + body);
  }

  // The exactness needs quote-free keys: a key ending in a quote and `type` fools the test.
  lemma HostileKeyFoolsTest(m: Member)
    requires m == Member("type", Str("finished"))
    ensures IsFinished(PrintObject([Member(['"'] + m.key, m.value)]))
    ensures m !in [Member(['"'] + m.key, m.value)]
  {
    FinishedHit(m, ['}']);
    HitBehindQuote(m);
    assert |['"'] + m.key| == |m.key| + 1;
  }
}
