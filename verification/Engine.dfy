/** The step engine: one recursive meaning of "run the steps of an execution", and the three
    hand-written loops (synchronous, streaming, legacy in-process) proved to carry it out. */
module Engine {
  import opened Json
  import opened Events
  import opened AiRunner

  datatype StepDef = StepDef(id: string, kind: string)
  datatype StepLog = StepLog(execId: nat, stepId: string, kind: string, status: string,
                             input: string, output: string, error: string, durationMs: nat)
  datatype GrpcEvent = GrpcEvent(kind: string, stepId: string, status: string, durationMs: nat, error: string)

  // The two step factories differ only in knowing ai_task.
  datatype Factory = EngineFactory | LegacyFactory

  predicate Knows(f: Factory, kind: string) {
    kind == "http_request" || kind == "transform" || kind == "delay" || kind == "condition" ||
    kind == "send_email" || (f.EngineFactory? && kind == "ai_task")
  }

  // Everything one step run learns from the outside world: whether its configuration and prompt are
  // accepted, what the provider streams, what any other runner returns, and the clock.
  datatype Obs = Obs(config: Option<string>, prompt: Option<string>, stream: Stream, plain: Result<string>,
                     durationMs: nat)

  const NO_OUTPUT := "null"

  datatype Performed = Performed(events: seq<Event>, status: string, error: string, output: string)

  function Failed(events: seq<Event>, error: string): Performed {
    Performed(events, "failed", error, NO_OUTPUT)
  }

  function Completed(events: seq<Event>, r: Result<string>): Performed {
    match r
    case Ok(doc) => Performed(events, "success", "", doc)
    case Err(m) => Failed(events, m)
  }

  // Build the runner of a step and run it.
  function Perform(f: Factory, step: StepDef, obs: Obs): (p: Performed)
    ensures p.status == "success" || (p.status == "failed" && p.output == NO_OUTPUT)
    ensures forall k :: 0 <= k < |p.events| ==> p.events[k].AiToken?
  {
    if !Knows(f, step.kind) then Failed([], "unknown step type: " + step.kind)
    else if obs.config.Some? then Failed([], obs.config.value)
    else if step.kind != "ai_task" then Completed([], obs.plain)
    else if obs.prompt.Some? then Failed([], "ai_task: render prompt: " + obs.prompt.value)
    else
      TokensOnly(step.id, obs.stream);
      Completed(AiEvents(step.id, obs.stream), AiResult(obs.stream))
  }

  lemma TokensOnly(stepId: string, s: Stream)
    ensures forall k :: 0 <= k < |AiEvents(stepId, s)| ==> AiEvents(stepId, s)[k].AiToken?
  {
    TokensNotLast(stepId, Texts(s));
  }

  // What an execution does to the outside: row status, step logs, channel.
  datatype Effect = SetStatus(status: string) | WriteLog(log: StepLog) | Publish(event: Event)

  function Publishes(es: seq<Event>): (r: seq<Effect>)
    ensures |r| == |es| && forall k :: 0 <= k < |r| ==> r[k] == Publish(es[k])
  {
    if es == [] then [] else [Publish(es[0])] + Publishes(es[1..])
  }

  function LogOf(e: nat, step: StepDef, input: string, p: Performed, obs: Obs): StepLog {
    StepLog(e, step.id, step.kind, p.status, input, p.output, p.error, obs.durationMs)
  }

  function StepEffects(e: nat, step: StepDef, input: string, p: Performed, obs: Obs): seq<Effect> {
    Publishes(p.events)
    + [WriteLog(LogOf(e, step, input, p, obs)), Publish(StepDone(e, step.id, p.status, obs.durationMs))]
  }

  function FinishEffects(e: nat, status: string): seq<Effect> {
    [SetStatus(status), Publish(Finished(e, status))]
  }

  datatype Run = Run(effects: seq<Effect>, status: string, error: string)

  // The meaning: each step's output is the next step's input; the first failure ends the execution.
  function RunFrom(f: Factory, e: nat, steps: seq<StepDef>, obs: seq<Obs>, input: string): Run
    requires |steps| <= |obs|
    decreases |steps|
  {
    if steps == [] then Run(FinishEffects(e, "success"), "success", "")
    else
      var p := Perform(f, steps[0], obs[0]);
      var here := StepEffects(e, steps[0], input, p, obs[0]);
      if p.status == "failed" then Run(here + FinishEffects(e, "failed"), "failed", p.error)
      else
        var later := RunFrom(f, e, steps[1..], obs[1..], p.output);
        Run(here + later.effects, later.status, later.error)
  }

  // The whole execution of a workflow whose step list parsed (or not).
  function Execute(f: Factory, e: nat, parsed: Option<seq<StepDef>>, obs: seq<Obs>): Run
    requires parsed.Some? ==> |parsed.value| <= |obs|
  {
    if parsed.None? then Run(FinishEffects(e, "success"), "success", "")
    else RunFrom(f, e, parsed.value, obs, "{}")
  }

  // ----- reading effects -----

  function LogsIn(x: Effect): seq<StepLog> {
    if x.WriteLog? then [x.log] else []
  }

  function LogsOf(es: seq<Effect>): seq<StepLog> {
    if es == [] then []
    else LogsIn(es[0]) + LogsOf(es[1..])
  }

  function EventOf(x: Effect): seq<Event> {
    if x.Publish? then [x.event] else []
  }

  function EventsOf(es: seq<Effect>): seq<Event> {
    if es == [] then []
    else EventOf(es[0]) + EventsOf(es[1..])
  }

  function StatusAfter(s: string, es: seq<Effect>): string
    decreases |es|
  {
    if es == [] then s
    else StatusAfter(if es[0].SetStatus? then es[0].status else s, es[1..])
  }

  lemma {:induction false} LogsAppend(a: seq<Effect>, b: seq<Effect>)
    ensures LogsOf(a + b) == LogsOf(a) + LogsOf(b)
  {
    if a == [] { assert a + b == b; }
    else {
      assert (a + b)[1..] == a[1..] + b;
      LogsAppend(a[1..], b);
      assert LogsIn(a[0]) + (LogsOf(a[1..]) + LogsOf(b)) == LogsOf(a) + LogsOf(b);
    }
  }

  lemma {:induction false} EventsAppend(a: seq<Effect>, b: seq<Effect>)
    ensures EventsOf(a + b) == EventsOf(a) + EventsOf(b)
  {
    if a == [] { assert a + b == b; }
    else {
      assert (a + b)[1..] == a[1..] + b;
      EventsAppend(a[1..], b);
      assert EventOf(a[0]) + (EventsOf(a[1..]) + EventsOf(b)) == EventsOf(a) + EventsOf(b);
    }
  }

  lemma {:induction false} StatusAppend(s: string, a: seq<Effect>, b: seq<Effect>)
    ensures StatusAfter(s, a + b) == StatusAfter(StatusAfter(s, a), b)
    decreases |a|
  {
    if a == [] { assert a + b == b; }
    else {
      assert (a + b)[1..] == a[1..] + b;
      StatusAppend(if a[0].SetStatus? then a[0].status else s, a[1..], b);
    }
  }

  lemma {:induction false} PublishesOnly(es: seq<Event>, s: string)
    ensures LogsOf(Publishes(es)) == [] && EventsOf(Publishes(es)) == es && StatusAfter(s, Publishes(es)) == s
  {
    if es != [] { PublishesOnly(es[1..], s); }
  }

  lemma ReadAppend(s: string, a: seq<Effect>, b: seq<Effect>)
    ensures LogsOf(a + b) == LogsOf(a) + LogsOf(b)
    ensures EventsOf(a + b) == EventsOf(a) + EventsOf(b)
    ensures StatusAfter(s, a + b) == StatusAfter(StatusAfter(s, a), b)
  {
    LogsAppend(a, b);
    EventsAppend(a, b);
    StatusAppend(s, a, b);
  }

  // ----- one turn of a loop -----

  // `done` then `rest` is what `whole` does after `start`.
  ghost predicate Remaining(start: seq<Effect>, whole: Run, done: seq<Effect>, rest: Run) {
    start + whole.effects == done + rest.effects && whole.status == rest.status && whole.error == rest.error
  }

  lemma Turn(f: Factory, e: nat, steps: seq<StepDef>, obs: seq<Obs>, i: nat, input: string,
             start: seq<Effect>, whole: Run, done: seq<Effect>)
    requires i < |steps| <= |obs|
    requires Remaining(start, whole, done, RunFrom(f, e, steps[i..], obs[i..], input))
    ensures var p := Perform(f, steps[i], obs[i]);
            var done' := done + StepEffects(e, steps[i], input, p, obs[i]);
            if p.status == "failed" then
              Remaining(start, whole, done', Run(FinishEffects(e, "failed"), "failed", p.error))
            else Remaining(start, whole, done', RunFrom(f, e, steps[i + 1..], obs[i + 1..], p.output))
  {
    var p := Perform(f, steps[i], obs[i]);
    var here := StepEffects(e, steps[i], input, p, obs[i]);
    assert steps[i..][1..] == steps[i + 1..] && obs[i..][1..] == obs[i + 1..];
    if p.status == "failed" {
      assert done + (here + FinishEffects(e, "failed")) == done + here + FinishEffects(e, "failed");
    } else {
      var later := RunFrom(f, e, steps[i + 1..], obs[i + 1..], p.output);
      assert done + (here + later.effects) == done + here + later.effects;
    }
  }

  lemma TurnEffects(before: seq<Effect>, e: nat, step: StepDef, input: string, p: Performed, obs: Obs)
    ensures before + Publishes(p.events) + [WriteLog(LogOf(e, step, input, p, obs))]
            + [Publish(StepDone(e, step.id, p.status, obs.durationMs))]
         == before + StepEffects(e, step, input, p, obs)
  {
  }

  function SentStep(step: StepDef, p: Performed, obs: Obs): GrpcEvent {
    GrpcEvent("step_done", step.id, p.status, obs.durationMs, p.error)
  }

  function SentFrom(steps: seq<StepDef>, obs: seq<Obs>): seq<GrpcEvent>
    requires |steps| <= |obs|
    decreases |steps|
  {
    if steps == [] then [GrpcEvent("finished", "", "success", 0, "")]
    else
      var p := Perform(EngineFactory, steps[0], obs[0]);
      [SentStep(steps[0], p, obs[0])]
      + if p.status == "failed" then [GrpcEvent("finished", "", "failed", 0, p.error)]
        else SentFrom(steps[1..], obs[1..])
  }

  lemma SentTurn(steps: seq<StepDef>, obs: seq<Obs>, i: nat, all: seq<GrpcEvent>, sent: seq<GrpcEvent>)
    requires i < |steps| <= |obs| && all == sent + SentFrom(steps[i..], obs[i..])
    ensures var p := Perform(EngineFactory, steps[i], obs[i]);
            all == sent + [SentStep(steps[i], p, obs[i])]
                   + if p.status == "failed" then [GrpcEvent("finished", "", "failed", 0, p.error)]
                     else SentFrom(steps[i + 1..], obs[i + 1..])
  {
    assert steps[i..][1..] == steps[i + 1..] && obs[i..][1..] == obs[i + 1..];
  }

  // ----- the three loops -----

  class Server {
    const channel: EventChannel
    const initial: string
    var status: string
    var logs: seq<StepLog>
    var sent: seq<GrpcEvent>
    ghost var trace: seq<Effect>

    ghost predicate Valid()
      reads this, channel
    {
      status == StatusAfter(initial, trace) && logs == LogsOf(trace) && channel.events == EventsOf(trace)
    }

    constructor (initial: string)
      ensures Valid() && fresh(channel) && trace == [] && sent == [] && this.initial == initial
    {
      channel := new EventChannel();
      this.initial := initial;
      status, logs, sent, trace := initial, [], [], [];
    }

    method UpdateStatus(s: string)
      requires Valid()
      modifies this`status, this`trace
      ensures Valid() && trace == old(trace) + [SetStatus(s)]
    {
      ReadAppend(initial, trace, [SetStatus(s)]);
      status, trace := s, trace + [SetStatus(s)];
    }

    method CreateLog(log: StepLog)
      requires Valid()
      modifies this`logs, this`trace
      ensures Valid() && trace == old(trace) + [WriteLog(log)]
    {
      ReadAppend(initial, trace, [WriteLog(log)]);
      logs, trace := logs + [log], trace + [WriteLog(log)];
    }

    method PublishEvent(e: Event)
      requires Valid()
      modifies channel, this`trace
      ensures Valid() && trace == old(trace) + [Publish(e)]
    {
      ReadAppend(initial, trace, [Publish(e)]);
      channel.Publish(e);
      trace := trace + [Publish(e)];
    }

    method FinishExecution(e: nat, s: string)
      requires Valid()
      modifies this`status, this`trace, channel
      ensures Valid() && trace == old(trace) + FinishEffects(e, s)
    {
      UpdateStatus(s);
      PublishEvent(Finished(e, s));
    }

    method RunAi(stepId: string, s: Stream) returns (r: Result<string>)
      requires Valid()
      modifies channel, this`trace
      ensures Valid() && trace == old(trace) + Publishes(AiEvents(stepId, s)) && r == AiResult(s)
    {
      if s.OpenAI? {
        r := RunOpenAI(channel, true, stepId, s);
      } else {
        r := RunAnthropic(channel, true, stepId, s);
      }
      ghost var es := Publishes(AiEvents(stepId, s));
      PublishesOnly(AiEvents(stepId, s), status);
      ReadAppend(initial, trace, es);
      trace := trace + es;
    }

    // factory.New followed by Run.
    method RunStep(f: Factory, step: StepDef, obs: Obs) returns (status: string, error: string, output: string)
      requires Valid()
      modifies channel, this`trace
      ensures Valid() && trace == old(trace) + Publishes(Perform(f, step, obs).events)
      ensures status == Perform(f, step, obs).status && error == Perform(f, step, obs).error
      ensures output == Perform(f, step, obs).output
    {
      output := NO_OUTPUT;
      if !Knows(f, step.kind) { return "failed", "unknown step type: " + step.kind, output; }
      if obs.config.Some? { return "failed", obs.config.value, output; }
      var r := obs.plain;
      if step.kind == "ai_task" {
        if obs.prompt.Some? { return "failed", "ai_task: render prompt: " + obs.prompt.value, output; }
        r := RunAi(step.id, obs.stream);
      }
      match r
      case Ok(doc) => return "success", "", doc;
      case Err(m) => return "failed", m, output;
    }

    // The synchronous loop.
    method RunSteps(e: nat, parsed: Option<seq<StepDef>>, obs: seq<Obs>)
      returns (status: string, error: string)
      requires Valid() && (parsed.Some? ==> |parsed.value| <= |obs|)
      modifies this`status, this`logs, this`trace, channel
      ensures Valid() && trace == old(trace) + Execute(EngineFactory, e, parsed, obs).effects
      ensures logs == old(logs) + LogsOf(Execute(EngineFactory, e, parsed, obs).effects)
      ensures status == Execute(EngineFactory, e, parsed, obs).status
      ensures error == Execute(EngineFactory, e, parsed, obs).error
    {
      LogsAppend(trace, Execute(EngineFactory, e, parsed, obs).effects);
      if parsed.None? || parsed.value == [] {
        FinishExecution(e, "success");
        return "success", "";
      }
      var steps := parsed.value;
      var input := "{}";
      var i := 0;
      ghost var whole := Execute(EngineFactory, e, parsed, obs);
      assert steps[0..] == steps && obs[0..] == obs;
      while i < |steps|
        invariant 0 <= i <= |steps| && Valid()
        invariant Remaining(old(trace), whole, trace, RunFrom(EngineFactory, e, steps[i..], obs[i..], input))
      {
        Turn(EngineFactory, e, steps, obs, i, input, old(trace), whole, trace);
        TurnEffects(trace, e, steps[i], input, Perform(EngineFactory, steps[i], obs[i]), obs[i]);
        var stepStatus, stepError, output := RunStep(EngineFactory, steps[i], obs[i]);
        var durationMs := obs[i].durationMs;
        CreateLog(StepLog(e, steps[i].id, steps[i].kind, stepStatus, input, output, stepError, durationMs));
        PublishEvent(StepDone(e, steps[i].id, stepStatus, durationMs));
        if stepStatus == "failed" {
          FinishExecution(e, "failed");
          return "failed", stepError;
        }
        input := output;
        i := i + 1;
      }
      FinishExecution(e, "success");
      return "success", "";
    }

    // The in-process executor's loop: it reports nothing to its caller and knows no AI step.
    method RunWorkflow(e: nat, parsed: Option<seq<StepDef>>, obs: seq<Obs>)
      requires Valid() && (parsed.Some? ==> |parsed.value| <= |obs|)
      modifies this`status, this`logs, this`trace, channel
      ensures Valid() && trace == old(trace) + Execute(LegacyFactory, e, parsed, obs).effects
      ensures logs == old(logs) + LogsOf(Execute(LegacyFactory, e, parsed, obs).effects)
    {
      LogsAppend(trace, Execute(LegacyFactory, e, parsed, obs).effects);
      if parsed.None? || parsed.value == [] {
        FinishExecution(e, "success");
        return;
      }
      var steps := parsed.value;
      var input := "{}";
      var i := 0;
      ghost var whole := Execute(LegacyFactory, e, parsed, obs);
      assert steps[0..] == steps && obs[0..] == obs;
      while i < |steps|
        invariant 0 <= i <= |steps| && Valid()
        invariant Remaining(old(trace), whole, trace, RunFrom(LegacyFactory, e, steps[i..], obs[i..], input))
      {
        Turn(LegacyFactory, e, steps, obs, i, input, old(trace), whole, trace);
        TurnEffects(trace, e, steps[i], input, Perform(LegacyFactory, steps[i], obs[i]), obs[i]);
        var stepStatus, stepError, output := RunStep(LegacyFactory, steps[i], obs[i]);
        var durationMs := obs[i].durationMs;
        CreateLog(StepLog(e, steps[i].id, steps[i].kind, stepStatus, input, output, stepError, durationMs));
        PublishEvent(StepDone(e, steps[i].id, stepStatus, durationMs));
        if stepStatus == "failed" {
          FinishExecution(e, "failed");
          return;
        }
        input := output;
        i := i + 1;
      }
      FinishExecution(e, "success");
    }

    // The unary RPC: no effect at all when a load fails.
    method RunExecution(e: nat, loaded: Result<Option<seq<StepDef>>>, obs: seq<Obs>)
      returns (r: Result<(string, string)>)
      requires Valid() && (loaded.Ok? && loaded.value.Some? ==> |loaded.value.value| <= |obs|)
      modifies this`status, this`logs, this`trace, channel
      ensures Valid()
      ensures loaded.Err? ==> r == Err(loaded.message) && trace == old(trace)
      ensures loaded.Ok? ==> trace == old(trace) + Script(e, loaded.value, obs)
      ensures loaded.Ok? ==> r == Ok((Execute(EngineFactory, e, loaded.value, obs).status,
                                      Execute(EngineFactory, e, loaded.value, obs).error))
    {
      if loaded.Err? { return Err(loaded.message); }
      UpdateStatus("running");
      var status, error := RunSteps(e, loaded.value, obs);
      ScriptJoin(old(trace), e, loaded.value, obs);
      return Ok((status, error));
    }

    // The server-streaming RPC: its own copy of the loop, also sending each event to the caller. The results of the
    // sends are ignored, except that of the last one after success (lastSend).
    method StreamExecution(e: nat, loaded: Result<Option<seq<StepDef>>>, obs: seq<Obs>, lastSend: Result<()>)
      returns (r: Result<()>)
      requires Valid() && (loaded.Ok? && loaded.value.Some? ==> |loaded.value.value| <= |obs|)
      modifies this`status, this`logs, this`trace, this`sent, channel
      ensures Valid()
      ensures loaded.Err? ==> r.Err? && trace == old(trace) && sent == old(sent)
      ensures loaded.Ok? ==> trace == old(trace) + Script(e, loaded.value, obs)
      ensures loaded.Ok? ==> sent == old(sent) + SentBy(loaded.value, obs)
      ensures r == if loaded.Err? then Err(loaded.message)
                   else if Execute(EngineFactory, e, loaded.value, obs).status == "failed" then Ok(()) else lastSend
    {
      if loaded.Err? { return Err(loaded.message); }
      UpdateStatus("running");
      r := StreamSteps(e, loaded.value, obs, lastSend);
      ScriptJoin(old(trace), e, loaded.value, obs);
    }

    method StreamSteps(e: nat, parsed: Option<seq<StepDef>>, obs: seq<Obs>, lastSend: Result<()>)
      returns (r: Result<()>)
      requires Valid() && (parsed.Some? ==> |parsed.value| <= |obs|)
      modifies this`status, this`logs, this`trace, this`sent, channel
      ensures Valid()
      ensures trace == old(trace) + Execute(EngineFactory, e, parsed, obs).effects
      ensures logs == old(logs) + LogsOf(Execute(EngineFactory, e, parsed, obs).effects)
      ensures sent == old(sent) + SentBy(parsed, obs)
      ensures r == if Execute(EngineFactory, e, parsed, obs).status == "failed" then Ok(()) else lastSend
    {
      LogsAppend(trace, Execute(EngineFactory, e, parsed, obs).effects);
      if parsed.None? || parsed.value == [] {
        FinishExecution(e, "success");
        sent := sent + [GrpcEvent("finished", "", "success", 0, "")];
        return lastSend;
      }
      var steps := parsed.value;
      var input := "{}";
      var i := 0;
      ghost var whole := RunFrom(EngineFactory, e, steps, obs, "{}");
      ghost var all := old(sent) + SentFrom(steps, obs);
      assert steps[0..] == steps && obs[0..] == obs;
      while i < |steps|
        invariant 0 <= i <= |steps| && Valid()
        invariant Remaining(old(trace), whole, trace, RunFrom(EngineFactory, e, steps[i..], obs[i..], input))
        invariant all == sent + SentFrom(steps[i..], obs[i..])
      {
        Turn(EngineFactory, e, steps, obs, i, input, old(trace), whole, trace);
        SentTurn(steps, obs, i, all, sent);
        TurnEffects(trace, e, steps[i], input, Perform(EngineFactory, steps[i], obs[i]), obs[i]);
        var status, error, output := RunStep(EngineFactory, steps[i], obs[i]);
        var durationMs := obs[i].durationMs;
        CreateLog(StepLog(e, steps[i].id, steps[i].kind, status, input, output, error, durationMs));
        PublishEvent(StepDone(e, steps[i].id, status, durationMs));
        sent := sent + [GrpcEvent("step_done", steps[i].id, status, durationMs, error)];
        if status == "failed" {
          FinishExecution(e, "failed");
          sent := sent + [GrpcEvent("finished", "", "failed", 0, error)];
          return Ok(());
        }
        input := output;
        i := i + 1;
      }
      FinishExecution(e, "success");
      sent := sent + [GrpcEvent("finished", "", "success", 0, "")];
      return lastSend;
    }
  }

  // All effects of a run by the engine service.
  function Script(e: nat, parsed: Option<seq<StepDef>>, obs: seq<Obs>): seq<Effect>
    requires parsed.Some? ==> |parsed.value| <= |obs|
  {
    [SetStatus("running")] + Execute(EngineFactory, e, parsed, obs).effects
  }

  lemma ScriptJoin(before: seq<Effect>, e: nat, parsed: Option<seq<StepDef>>, obs: seq<Obs>)
    requires parsed.Some? ==> |parsed.value| <= |obs|
    ensures before + [SetStatus("running")] + Execute(EngineFactory, e, parsed, obs).effects
         == before + Script(e, parsed, obs)
  {
  }

  // Everything the streaming RPC sends to its caller.
  function SentBy(parsed: Option<seq<StepDef>>, obs: seq<Obs>): seq<GrpcEvent>
    requires parsed.Some? ==> |parsed.value| <= |obs|
  {
    if parsed.None? then [GrpcEvent("finished", "", "success", 0, "")] else SentFrom(parsed.value, obs)
  }
}
