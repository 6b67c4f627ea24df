/** The texts that one service writes and another reads, key by key. */
module Wire {
  import opened Json
  import opened Events
  import opened Messages
  import opened StreamHandler

  // "key":value
  function Field(key: string, value: string): string {
    ['"'] + key + ['"'] + [':'] + value
  }

  function Joined(parts: seq<string>): string
    requires parts != []
  {
    parts[0] + if |parts| == 1 then "" else [','] + Joined(parts[1..])
  }

  function Braced(parts: seq<string>): string
    requires parts != []
  {
    ['{'] + (Joined(parts) + ['}'])
  }

  function FieldOf(m: Member): string {
    Field(m.key, PrintValue(m.value))
  }

  function FieldsOf(ms: seq<Member>): (r: seq<string>)
    ensures |r| == |ms| && forall k :: 0 <= k < |r| ==> r[k] == FieldOf(ms[k])
  {
    if ms == [] then []
    else
      var first := FieldOf(ms[0]);
      [first] + FieldsOf(ms[1..])
  }

  lemma Fields(a: Member, b: Member, c: Member, d: Member)
    ensures FieldsOf([]) == [] && FieldsOf([a]) == [FieldOf(a)] && FieldsOf([a, b]) == [FieldOf(a), FieldOf(b)]
    ensures FieldsOf([a, b, c]) == [FieldOf(a), FieldOf(b), FieldOf(c)]
    ensures FieldsOf([a, b, c, d]) == [FieldOf(a), FieldOf(b), FieldOf(c), FieldOf(d)]
  {
  }

  lemma FieldsAppend(a: seq<Member>, b: seq<Member>)
    ensures FieldsOf(a + b) == FieldsOf(a) + FieldsOf(b)
  {
  }

  predicate LetterKeys(ms: seq<Member>) {
    forall k :: 0 <= k < |ms| ==> Letters(ms[k].key)
  }

  lemma MembersAppend(field: string, later: string)
    ensures field + ([','] + (later + ['}'])) == (field + ([','] + later)) + ['}']
  {
  }

  lemma {:induction false} MembersJoined(ms: seq<Member>)
    requires ms != [] && LetterKeys(ms)
    ensures PrintMembers(ms) == Joined(FieldsOf(ms)) + ['}']
  {
    var field := FieldOf(ms[0]);
    LetterQuote(ms[0].key);
    if |ms| > 1 {
      assert LetterKeys(ms[1..]);
      MembersJoined(ms[1..]);
      assert FieldsOf(ms)[1..] == FieldsOf(ms[1..]);
      MembersAppend(field, Joined(FieldsOf(ms[1..])));
    } else {
      assert field + "" == field;
    }
  }

  // An object with plain keys is written as its fields, in order, without any space.
  lemma ObjectText(ms: seq<Member>)
    requires ms != [] && LetterKeys(ms)
    ensures PrintObject(ms) == Braced(FieldsOf(ms))
  {
    MembersJoined(ms);
  }

  // The execution message on the queue.
  lemma MessageText(m: ExecutionMessage)
    ensures Marshal(m) == Braced([Field("executionId", Itoa(m.executionId)), Field("workflowId", Itoa(m.workflowId)),
                                  Field("triggerPayload", Quote(m.triggerPayload))])
  {
    var ms := ToFields(m);
    ObjectText(ms);
    Fields(ms[0], ms[1], ms[2], ms[2]);
  }

  // The end of an execution on its channel.
  lemma FinishedText(e: nat, status: string)
    ensures Serialise(Finished(e, status))
         == Braced([Field("type", Quote("finished")), Field("executionId", Itoa(e)), Field("status", Quote(status))])
  {
    var ms := ToMembers(Finished(e, status));
    ObjectText(ms);
    Fields(ms[0], ms[1], ms[2], ms[2]);
  }

  // A token of an AI step.
  lemma TokenText(id: string, token: string, last: bool)
    ensures Serialise(AiToken(id, token, last))
         == Braced([Field("type", Quote("ai_token")), Field("stepId", Quote(id)), Field("token", Quote(token)),
                    Field("finished", if last then "true" else "false")])
  {
    var ms := ToMembers(AiToken(id, token, last));
    ObjectText(ms);
    Fields(ms[0], ms[1], ms[2], ms[3]);
  }

  // The end of a step; an empty id and a zero duration are left out.
  lemma StepDoneText(e: nat, id: string, status: string, ms: nat)
    ensures Serialise(StepDone(e, id, status, ms))
         == Braced([Field("type", Quote("step_done")), Field("executionId", Itoa(e))]
                   + (if id == "" then [] else [Field("stepId", Quote(id))]) + [Field("status", Quote(status))]
                   + if ms == 0 then [] else [Field("durationMs", Itoa(ms))])
  {
    var kind, exec := Member("type", Str("step_done")), Member("executionId", Num(e));
    var step, state, time := Member("stepId", Str(id)), Member("status", Str(status)), Member("durationMs", Num(ms));
    ObjectText(ToMembers(StepDone(e, id, status, ms)));
    var first, last := if id == "" then [] else [step], if ms == 0 then [] else [time];
    FieldsAppend([kind, exec] + first + [state], last);
    FieldsAppend([kind, exec] + first, [state]);
    FieldsAppend([kind, exec], first);
    Fields(kind, exec, exec, exec);
    Fields(step, step, step, step);
    Fields(state, state, state, state);
    Fields(time, time, time, time);
  }
}
