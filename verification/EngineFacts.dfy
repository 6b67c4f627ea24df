/** What every run of the step engine guarantees, for all step lists and all outside behaviour. */
module EngineFacts {
  import opened Json
  import opened Events
  import opened AiRunner
  import opened Engine
  import opened Sequences

  // ----- shape of the effects -----

  // Neither a status change nor an end-of-execution event.
  predicate Quiet(x: Effect) {
    !x.SetStatus? && !(x.Publish? && x.event.Finished?)
  }

  predicate AllQuiet(es: seq<Effect>) {
    forall k :: 0 <= k < |es| ==> Quiet(es[k])
  }

  lemma StepQuiet(e: nat, step: StepDef, input: string, p: Performed, obs: Obs)
    requires forall k :: 0 <= k < |p.events| ==> p.events[k].AiToken?
    ensures AllQuiet(StepEffects(e, step, input, p, obs))
  {
  }

  // A run works quietly and then, as its last two effects, stores the terminal status and announces it.
  lemma {:induction false} RunShape(f: Factory, e: nat, steps: seq<StepDef>, obs: seq<Obs>, input: string)
    returns (work: seq<Effect>)
    requires |steps| <= |obs|
    ensures RunFrom(f, e, steps, obs, input).effects == work + FinishEffects(e, RunFrom(f, e, steps, obs, input).status)
    ensures AllQuiet(work)
    ensures RunFrom(f, e, steps, obs, input).status == "success" || RunFrom(f, e, steps, obs, input).status == "failed"
    decreases |steps|
  {
    if steps == [] {
      work := [];
      return;
    }
    var p := Perform(f, steps[0], obs[0]);
    var here := StepEffects(e, steps[0], input, p, obs[0]);
    StepQuiet(e, steps[0], input, p, obs[0]);
    if p.status == "failed" {
      work := here;
    } else {
      var later := RunShape(f, e, steps[1..], obs[1..], p.output);
      work := here + later;
      var status := RunFrom(f, e, steps[1..], obs[1..], p.output).status;
      assert here + (later + FinishEffects(e, status)) == work + FinishEffects(e, status);
    }
  }

  lemma ExecuteShape(f: Factory, e: nat, parsed: Option<seq<StepDef>>, obs: seq<Obs>) returns (work: seq<Effect>)
    requires parsed.Some? ==> |parsed.value| <= |obs|
    ensures Execute(f, e, parsed, obs).effects == work + FinishEffects(e, Execute(f, e, parsed, obs).status)
    ensures AllQuiet(work)
    ensures Execute(f, e, parsed, obs).status == "success" || Execute(f, e, parsed, obs).status == "failed"
  {
    if parsed.None? { work := []; }
    else { work := RunShape(f, e, parsed.value, obs, "{}"); }
  }

  // ----- logs and events of a run, step by step -----

  lemma ReadOne(x: Effect, s: string)
    ensures LogsOf([x]) == LogsIn(x) && EventsOf([x]) == EventOf(x)
    ensures StatusAfter(s, [x]) == if x.SetStatus? then x.status else s
  {
    assert [x][1..] == [];
  }

  lemma ReadTwo(x: Effect, y: Effect, s: string)
    ensures LogsOf([x, y]) == LogsIn(x) + LogsIn(y) && EventsOf([x, y]) == EventOf(x) + EventOf(y)
    ensures StatusAfter(s, [x, y]) == StatusAfter(StatusAfter(s, [x]), [y])
  {
    ReadOne(x, s);
    ReadOne(y, s);
    ReadAppend(s, [x], [y]);
    assert [x] + [y] == [x, y];
  }

  lemma StepLogsAlone(e: nat, step: StepDef, input: string, p: Performed, obs: Obs)
    ensures LogsOf(StepEffects(e, step, input, p, obs)) == [LogOf(e, step, input, p, obs)]
  {
    var x := WriteLog(LogOf(e, step, input, p, obs));
    var y := Publish(StepDone(e, step.id, p.status, obs.durationMs));
    PublishesOnly(p.events, "");
    ReadTwo(x, y, "");
    LogsAppend(Publishes(p.events), [x, y]);
  }

  lemma StepEventsAlone(e: nat, step: StepDef, input: string, p: Performed, obs: Obs)
    ensures EventsOf(StepEffects(e, step, input, p, obs)) == p.events + [StepDone(e, step.id, p.status, obs.durationMs)]
  {
    var x := WriteLog(LogOf(e, step, input, p, obs));
    var y := Publish(StepDone(e, step.id, p.status, obs.durationMs));
    PublishesOnly(p.events, "");
    ReadTwo(x, y, "");
    EventsAppend(Publishes(p.events), [x, y]);
  }

  lemma StepReads(e: nat, step: StepDef, input: string, p: Performed, obs: Obs, tail: seq<Effect>)
    ensures LogsOf(StepEffects(e, step, input, p, obs) + tail) == [LogOf(e, step, input, p, obs)] + LogsOf(tail)
    ensures EventsOf(StepEffects(e, step, input, p, obs) + tail)
         == p.events + [StepDone(e, step.id, p.status, obs.durationMs)] + EventsOf(tail)
  {
    StepLogsAlone(e, step, input, p, obs);
    StepEventsAlone(e, step, input, p, obs);
    ReadAppend("", StepEffects(e, step, input, p, obs), tail);
  }

  lemma FinishReads(e: nat, status: string, s: string)
    ensures LogsOf(FinishEffects(e, status)) == []
    ensures EventsOf(FinishEffects(e, status)) == [Finished(e, status)]
    ensures StatusAfter(s, FinishEffects(e, status)) == status
  {
    ReadTwo(SetStatus(status), Publish(Finished(e, status)), s);
    ReadOne(SetStatus(status), s);
    ReadOne(Publish(Finished(e, status)), status);
  }

  // The rows and the channel events of a run, without the status changes between them.
  function Rows(f: Factory, e: nat, steps: seq<StepDef>, obs: seq<Obs>, input: string): seq<StepLog>
    requires |steps| <= |obs|
    decreases |steps|
  {
    if steps == [] then []
    else
      var p := Perform(f, steps[0], obs[0]);
      [LogOf(e, steps[0], input, p, obs[0])]
      + if p.status == "failed" then [] else Rows(f, e, steps[1..], obs[1..], p.output)
  }

  function StepEvents(e: nat, step: StepDef, p: Performed, obs: Obs): seq<Event> {
    p.events + [StepDone(e, step.id, p.status, obs.durationMs)]
  }

  function Heard(f: Factory, e: nat, steps: seq<StepDef>, obs: seq<Obs>): seq<Event>
    requires |steps| <= |obs|
    decreases |steps|
  {
    if steps == [] then [Finished(e, "success")]
    else
      var p := Perform(f, steps[0], obs[0]);
      StepEvents(e, steps[0], p, obs[0])
      + if p.status == "failed" then [Finished(e, "failed")] else Heard(f, e, steps[1..], obs[1..])
  }

  lemma {:induction false} RunReads(f: Factory, e: nat, steps: seq<StepDef>, obs: seq<Obs>, input: string)
    requires |steps| <= |obs|
    ensures LogsOf(RunFrom(f, e, steps, obs, input).effects) == Rows(f, e, steps, obs, input)
    ensures EventsOf(RunFrom(f, e, steps, obs, input).effects) == Heard(f, e, steps, obs)
    decreases |steps|
  {
    if steps == [] {
      FinishReads(e, "success", "");
    } else {
      var p := Perform(f, steps[0], obs[0]);
      if p.status == "failed" {
        FinishReads(e, "failed", "");
        StepReads(e, steps[0], input, p, obs[0], FinishEffects(e, "failed"));
      } else {
        RunReads(f, e, steps[1..], obs[1..], p.output);
        StepReads(e, steps[0], input, p, obs[0], RunFrom(f, e, steps[1..], obs[1..], p.output).effects);
      }
    }
  }

  lemma StepNamesExec(e: nat, step: StepDef, input: string, p: Performed, obs: Obs, k: nat)
    ensures var es := StepEffects(e, step, input, p, obs);
            k < |es| && es[k].WriteLog? ==> es[k].log.execId == e
  {
  }

  lemma {:induction false} RunNamesExec(e: nat, steps: seq<StepDef>, obs: seq<Obs>, input: string, k: nat)
    requires |steps| <= |obs|
    ensures var es := RunFrom(EngineFactory, e, steps, obs, input).effects;
            k < |es| && es[k].WriteLog? ==> es[k].log.execId == e
    decreases |steps|
  {
    if steps != [] {
      var p := Perform(EngineFactory, steps[0], obs[0]);
      var here := StepEffects(e, steps[0], input, p, obs[0]);
      StepNamesExec(e, steps[0], input, p, obs[0], k);
      if p.status != "failed" && k >= |here| {
        RunNamesExec(e, steps[1..], obs[1..], p.output, k - |here|);
      }
    }
  }

  // Every row a run writes names its execution.
  lemma ScriptNamesExec(e: nat, parsed: Option<seq<StepDef>>, obs: seq<Obs>, k: nat)
    requires parsed.Some? ==> |parsed.value| <= |obs|
    ensures k < |Script(e, parsed, obs)| && Script(e, parsed, obs)[k].WriteLog? ==>
              Script(e, parsed, obs)[k].log.execId == e
  {
    if k > 0 && parsed.Some? { RunNamesExec(e, parsed.value, obs, "{}", k - 1); }
  }

  // ----- the status of a run, effect by effect -----

  predicate NoFinish(es: seq<Effect>) {
    forall k :: 0 <= k < |es| ==> !(es[k].Publish? && es[k].event.Finished?)
  }

  lemma {:induction false} QuietStatus(s: string, es: seq<Effect>)
    requires AllQuiet(es)
    ensures StatusAfter(s, es) == s
    decreases |es|
  {
    if es != [] { QuietStatus(s, es[1..]); }
  }

  function StatusAt(n: nat, r: nat, final: string): string {
    if r == 0 then "pending" else if r + 1 < n then "running" else final
  }

  // A run's effects: pending or running until the last two effects, which store and announce the end.
  ghost predicate EndsOnce(s: seq<Effect>, e: nat, final: string) {
    && Terminal(final) && |s| >= 3
    && s[|s| - 2] == SetStatus(final) && s[|s| - 1] == Publish(Finished(e, final))
    && NoFinish(s[..|s| - 1])
    && forall r: nat :: r <= |s| ==> StatusAfter("pending", s[..r]) == StatusAt(|s|, r, final)
  }

  lemma EarlyStatus(work: seq<Effect>, r: nat)
    requires AllQuiet(work) && r <= |work|
    ensures StatusAfter("pending", [SetStatus("running")] + work[..r]) == "running"
  {
    ReadOne(SetStatus("running"), "pending");
    StatusAppend("pending", [SetStatus("running")], work[..r]);
    QuietStatus("running", work[..r]);
  }

  lemma LateStatus(work: seq<Effect>, e: nat, final: string)
    requires AllQuiet(work)
    ensures StatusAfter("pending", [SetStatus("running")] + work + [SetStatus(final)]) == final
    ensures StatusAfter("pending", [SetStatus("running")] + work + FinishEffects(e, final)) == final
  {
    var front := [SetStatus("running")] + work;
    StatusAppend("pending", front, [SetStatus(final)]);
    StatusAppend("pending", front, FinishEffects(e, final));
    ReadOne(SetStatus(final), StatusAfter("pending", front));
    FinishReads(e, final, StatusAfter("pending", front));
  }

  lemma ShapeEndsOnce(work: seq<Effect>, e: nat, final: string)
    requires AllQuiet(work) && Terminal(final)
    ensures EndsOnce([SetStatus("running")] + work + FinishEffects(e, final), e, final)
  {
    var s := [SetStatus("running")] + work + FinishEffects(e, final);
    forall r: nat | r <= |s| ensures StatusAfter("pending", s[..r]) == StatusAt(|s|, r, final) {
      if r > 0 {
        LateStatus(work, e, final);
        if r <= |work| + 1 {
          assert s[..r] == [SetStatus("running")] + work[..r - 1];
          EarlyStatus(work, r - 1);
        } else if r < |s| {
          assert s[..r] == [SetStatus("running")] + work + [SetStatus(final)];
        } else {
          assert s[..r] == s;
        }
      }
    }
  }

  lemma ScriptEndsOnce(e: nat, parsed: Option<seq<StepDef>>, obs: seq<Obs>)
    requires parsed.Some? ==> |parsed.value| <= |obs|
    ensures EndsOnce(Script(e, parsed, obs), e, Execute(EngineFactory, e, parsed, obs).status)
  {
    var work := ExecuteShape(EngineFactory, e, parsed, obs);
    var final := Execute(EngineFactory, e, parsed, obs).status;
    ShapeEndsOnce(work, e, final);
    assert Script(e, parsed, obs) == [SetStatus("running")] + work + FinishEffects(e, final);
  }

  // The first effect of a script, running, logs and publishes nothing.
  lemma ScriptReads(e: nat, parsed: Option<seq<StepDef>>, obs: seq<Obs>)
    requires parsed.Some? ==> |parsed.value| <= |obs|
    ensures var s, run := Script(e, parsed, obs), Execute(EngineFactory, e, parsed, obs);
            && LogsOf(s) == LogsOf(run.effects) && EventsOf(s) == EventsOf(run.effects)
            && StatusAfter("pending", s) == run.status
  {
    var s, run := Script(e, parsed, obs), Execute(EngineFactory, e, parsed, obs);
    var running := SetStatus("running");
    ReadAppend("pending", [running], run.effects);
    ReadOne(running, "pending");
    ScriptEndsOnce(e, parsed, obs);
    assert s[..|s|] == s;
  }

  // ----- the logs determine the status -----

  predicate Chained(logs: seq<StepLog>, input: string) {
    && (logs != [] ==> logs[0].input == input)
    && forall j :: 0 <= j < |logs| - 1 ==> logs[j].output == logs[j + 1].input
  }

  predicate OfSteps(logs: seq<StepLog>, e: nat, steps: seq<StepDef>) {
    && |logs| <= |steps|
    && forall j :: 0 <= j < |logs| ==>
         logs[j].execId == e && logs[j].stepId == steps[j].id && logs[j].kind == steps[j].kind
  }

  // Every row reports success, except that the last may report failure.
  predicate OnlyLastFails(logs: seq<StepLog>) {
    forall j :: 0 <= j < |logs| ==> logs[j].status == "success" || (logs[j].status == "failed" && j == |logs| - 1)
  }

  predicate AllSucceed(logs: seq<StepLog>) {
    forall j :: 0 <= j < |logs| ==> logs[j].status == "success"
  }

  predicate Verdict(logs: seq<StepLog>, n: nat, status: string, error: string) {
    && (status == "success" || status == "failed")
    && (status == "success" <==> |logs| == n && AllSucceed(logs))
    && (status == "failed" <==> logs != [] && logs[|logs| - 1].status == "failed")
    && error == (if status == "failed" && logs != [] then logs[|logs| - 1].error else "")
  }

  predicate Account(logs: seq<StepLog>, e: nat, steps: seq<StepDef>, input: string, status: string, error: string) {
    OfSteps(logs, e, steps) && OnlyLastFails(logs) && Chained(logs, input) && Verdict(logs, |steps|, status, error)
  }

  lemma ChainedCons(log: StepLog, later: seq<StepLog>)
    requires Chained(later, log.output)
    ensures Chained([log] + later, log.input)
  {
    var logs := [log] + later;
    forall j | 0 <= j < |logs| - 1 ensures logs[j].output == logs[j + 1].input {
      assert logs[j + 1] == later[j];
      if j > 0 { assert logs[j] == later[j - 1]; }
    }
  }

  lemma AccountCons(log: StepLog, later: seq<StepLog>, e: nat, steps: seq<StepDef>, status: string, error: string)
    requires steps != [] && Account(later, e, steps[1..], log.output, status, error)
    requires log.execId == e && log.stepId == steps[0].id && log.kind == steps[0].kind && log.status == "success"
    ensures Account([log] + later, e, steps, log.input, status, error)
  {
    var logs := [log] + later;
    ChainedCons(log, later);
    assert logs[0] == log && logs[1..] == later;
    assert forall j :: 1 <= j < |logs| ==> logs[j] == later[j - 1] && steps[j] == steps[1..][j - 1];
    assert AllSucceed(later) ==> AllSucceed(logs);
    if AllSucceed(logs) {
      forall j | 0 <= j < |later| ensures later[j].status == "success" { assert later[j] == logs[j + 1]; }
    }
  }

  lemma {:induction false} RunAccount(f: Factory, e: nat, steps: seq<StepDef>, obs: seq<Obs>, input: string)
    requires |steps| <= |obs|
    ensures var run := RunFrom(f, e, steps, obs, input);
            Account(Rows(f, e, steps, obs, input), e, steps, input, run.status, run.error)
    decreases |steps|
  {
    if steps != [] {
      var p := Perform(f, steps[0], obs[0]);
      if p.status != "failed" {
        RunAccount(f, e, steps[1..], obs[1..], p.output);
        AccountCons(LogOf(e, steps[0], input, p, obs[0]), Rows(f, e, steps[1..], obs[1..], p.output), e, steps,
                    RunFrom(f, e, steps, obs, input).status, RunFrom(f, e, steps, obs, input).error);
      }
    }
  }

  // For a completed run the step logs decide the outcome: success exactly when every parsed step has a
  // success row (also when there are none), failure exactly when the last row is the failed one; rows
  // follow the step list, start from the empty object and chain output to input.
  lemma LogsDetermineStatus(f: Factory, e: nat, parsed: Option<seq<StepDef>>, obs: seq<Obs>)
    requires parsed.Some? ==> |parsed.value| <= |obs|
    ensures var run := Execute(f, e, parsed, obs);
            var logs := LogsOf(run.effects);
            var steps := if parsed.Some? then parsed.value else [];
            && OfSteps(logs, e, steps) && OnlyLastFails(logs) && Chained(logs, "{}")
            && (run.status == "success" <==> |logs| == |steps| && AllSucceed(logs))
            && (run.status == "failed" <==> logs != [] && logs[|logs| - 1].status == "failed")
            && run.error == (if run.status == "failed" then logs[|logs| - 1].error else "")
  {
    if parsed.None? {
      FinishReads(e, "success", "");
    } else {
      RunReads(f, e, parsed.value, obs, "{}");
      RunAccount(f, e, parsed.value, obs, "{}");
    }
  }

  // ----- the legacy executor -----

  function FirstAi(steps: seq<StepDef>): (k: nat)
    ensures k <= |steps|
  {
    if steps == [] || steps[0].kind == "ai_task" then 0 else 1 + FirstAi(steps[1..])
  }

  function LegacyRefusal(e: nat, step: StepDef, input: string, obs: Obs): StepLog {
    StepLog(e, step.id, "ai_task", "failed", input, NO_OUTPUT, REFUSAL, obs.durationMs)
  }

  const REFUSAL := "unknown step type: " + "ai_task"

  predicate LegacyRows(engine: seq<StepLog>, legacy: seq<StepLog>, e: nat, steps: seq<StepDef>, obs: seq<Obs>, k: nat)
    requires |steps| <= |obs|
  {
    k < |steps| && k < |engine| && legacy == engine[..k] + [LegacyRefusal(e, steps[k], engine[k].input, obs[k])]
  }

  predicate LegacyEvents(engine: seq<Event>, legacy: seq<Event>, e: nat, steps: seq<StepDef>, obs: seq<Obs>, k: nat)
    requires |steps| <= |obs|
  {
    k < |steps| && k <= |engine| &&
    legacy == engine[..k] + [StepDone(e, steps[k].id, "failed", obs[k].durationMs), Finished(e, "failed")]
  }

  lemma {:induction false} LegacySame(e: nat, steps: seq<StepDef>, obs: seq<Obs>, input: string)
    requires |steps| <= |obs| && |Rows(EngineFactory, e, steps, obs, input)| <= FirstAi(steps)
    ensures RunFrom(LegacyFactory, e, steps, obs, input) == RunFrom(EngineFactory, e, steps, obs, input)
    decreases |steps|
  {
    if steps != [] {
      var p := Perform(EngineFactory, steps[0], obs[0]);
      assert Perform(LegacyFactory, steps[0], obs[0]) == p;
      if p.status != "failed" {
        LegacySame(e, steps[1..], obs[1..], p.output);
      }
    }
  }

  lemma {:induction false} LegacyStops(e: nat, steps: seq<StepDef>, obs: seq<Obs>, input: string)
    requires |steps| <= |obs| && |Rows(EngineFactory, e, steps, obs, input)| > FirstAi(steps)
    ensures LegacyRows(Rows(EngineFactory, e, steps, obs, input), Rows(LegacyFactory, e, steps, obs, input), e, steps,
                       obs, FirstAi(steps))
    ensures LegacyEvents(Heard(EngineFactory, e, steps, obs), Heard(LegacyFactory, e, steps, obs), e, steps, obs,
                         FirstAi(steps))
    ensures RunFrom(LegacyFactory, e, steps, obs, input).status == "failed"
    ensures RunFrom(LegacyFactory, e, steps, obs, input).error == REFUSAL
    decreases |steps|
  {
    var p := Perform(LegacyFactory, steps[0], obs[0]);
    if steps[0].kind == "ai_task" {
      assert p == Failed([], REFUSAL);
    } else {
      var k := FirstAi(steps[1..]);
      assert Perform(EngineFactory, steps[0], obs[0]) == p && p.events == [];
      LegacyStops(e, steps[1..], obs[1..], p.output);
      RowsCons(LogOf(e, steps[0], input, p, obs[0]), Rows(EngineFactory, e, steps[1..], obs[1..], p.output),
               Rows(LegacyFactory, e, steps[1..], obs[1..], p.output), e, steps, obs, k);
      EventsCons(StepDone(e, steps[0].id, p.status, obs[0].durationMs), Heard(EngineFactory, e, steps[1..], obs[1..]),
                 Heard(LegacyFactory, e, steps[1..], obs[1..]), e, steps, obs, k);
      assert StepEvents(e, steps[0], p, obs[0]) == [StepDone(e, steps[0].id, p.status, obs[0].durationMs)];
    }
  }

  lemma RowsCons(log: StepLog, engine: seq<StepLog>, legacy: seq<StepLog>, e: nat, steps: seq<StepDef>, obs: seq<Obs>,
                 k: nat)
    requires steps != [] && |steps| <= |obs| && LegacyRows(engine, legacy, e, steps[1..], obs[1..], k)
    ensures LegacyRows([log] + engine, [log] + legacy, e, steps, obs, k + 1)
  {
    assert ([log] + engine)[..k + 1] == [log] + engine[..k];
  }

  lemma EventsCons(d: Event, engine: seq<Event>, legacy: seq<Event>, e: nat, steps: seq<StepDef>, obs: seq<Obs>, k: nat)
    requires steps != [] && |steps| <= |obs| && LegacyEvents(engine, legacy, e, steps[1..], obs[1..], k)
    ensures LegacyEvents([d] + engine, [d] + legacy, e, steps, obs, k + 1)
  {
    assert ([d] + engine)[..k + 1] == [d] + engine[..k];
  }

  // The legacy loop does the same as the engine's as long as the engine does not reach an AI step; where
  // it does, the legacy loop shares the rows and events before it, logs that one step as failed and stops.
  lemma LegacyAgrees(e: nat, steps: seq<StepDef>, obs: seq<Obs>, input: string)
    requires |steps| <= |obs|
    ensures var engine := RunFrom(EngineFactory, e, steps, obs, input);
            var legacy := RunFrom(LegacyFactory, e, steps, obs, input);
            var k := FirstAi(steps);
            if |LogsOf(engine.effects)| <= k then legacy == engine
            else
              && LegacyRows(LogsOf(engine.effects), LogsOf(legacy.effects), e, steps, obs, k)
              && LegacyEvents(EventsOf(engine.effects), EventsOf(legacy.effects), e, steps, obs, k)
              && legacy.status == "failed" && legacy.error == REFUSAL
  {
    RunReads(EngineFactory, e, steps, obs, input);
    RunReads(LegacyFactory, e, steps, obs, input);
    if |Rows(EngineFactory, e, steps, obs, input)| <= FirstAi(steps) {
      LegacySame(e, steps, obs, input);
    } else {
      LegacyStops(e, steps, obs, input);
    }
  }

  // ----- the streaming RPC mirrors the channel -----

  function NonTokens(es: seq<Event>): seq<Event> {
    if es == [] then []
    else (if es[0].AiToken? then [] else [es[0]]) + NonTokens(es[1..])
  }

  predicate Same(g: GrpcEvent, e: Event) {
    match e
    case StepDone(_, stepId, status, d) =>
      g.kind == "step_done" && g.stepId == stepId && g.status == status && g.durationMs == d
    case Finished(_, status) => g.kind == "finished" && g.stepId == "" && g.status == status && g.durationMs == 0
    case AiToken(_, _, _) => false
  }

  lemma {:induction false} NonTokensAppend(a: seq<Event>, b: seq<Event>)
    ensures NonTokens(a + b) == NonTokens(a) + NonTokens(b)
  {
    if a == [] { assert a + b == b; }
    else {
      assert (a + b)[1..] == a[1..] + b;
      NonTokensAppend(a[1..], b);
    }
  }

  lemma {:induction false} TokensVanish(es: seq<Event>)
    requires forall k :: 0 <= k < |es| ==> es[k].AiToken?
    ensures NonTokens(es) == []
  {
    if es != [] { TokensVanish(es[1..]); }
  }

  predicate Mirrors(sent: seq<GrpcEvent>, events: seq<Event>, logs: seq<StepLog>, error: string) {
    && |sent| == |events| == |logs| + 1
    && (forall k :: 0 <= k < |sent| ==> Same(sent[k], events[k]))
    && (forall k :: 0 <= k < |logs| ==> sent[k].error == logs[k].error)
    && sent[|logs|].error == error
  }

  lemma MirrorsCons(g: GrpcEvent, d: Event, log: StepLog, sent: seq<GrpcEvent>, events: seq<Event>, logs: seq<StepLog>,
                    error: string)
    requires Same(g, d) && g.error == log.error && Mirrors(sent, events, logs, error)
    ensures Mirrors([g] + sent, [d] + events, [log] + logs, error)
  {
  }

  lemma StepNonTokens(e: nat, step: StepDef, p: Performed, obs: Obs, tail: seq<Event>)
    requires forall k :: 0 <= k < |p.events| ==> p.events[k].AiToken?
    ensures NonTokens(StepEvents(e, step, p, obs) + tail)
         == [StepDone(e, step.id, p.status, obs.durationMs)] + NonTokens(tail)
  {
    var done := [StepDone(e, step.id, p.status, obs.durationMs)];
    TokensVanish(p.events);
    assert StepEvents(e, step, p, obs) + tail == p.events + (done + tail);
    NonTokensAppend(p.events, done + tail);
    assert (done + tail)[1..] == tail;
  }

  lemma {:induction false} SentMirrorsRun(e: nat, steps: seq<StepDef>, obs: seq<Obs>, input: string)
    requires |steps| <= |obs|
    ensures Mirrors(SentFrom(steps, obs), NonTokens(Heard(EngineFactory, e, steps, obs)),
                    Rows(EngineFactory, e, steps, obs, input), RunFrom(EngineFactory, e, steps, obs, input).error)
    decreases |steps|
  {
    if steps == [] {
      assert [Finished(e, "success")][1..] == [];
    } else {
      var p := Perform(EngineFactory, steps[0], obs[0]);
      var g, d := SentStep(steps[0], p, obs[0]), StepDone(e, steps[0].id, p.status, obs[0].durationMs);
      var log := LogOf(e, steps[0], input, p, obs[0]);
      if p.status == "failed" {
        var over := [Finished(e, "failed")];
        StepNonTokens(e, steps[0], p, obs[0], over);
        assert over[1..] == [] && NonTokens(over) == over;
        MirrorsCons(g, d, log, [GrpcEvent("finished", "", "failed", 0, p.error)], over, [], p.error);
      } else {
        StepNonTokens(e, steps[0], p, obs[0], Heard(EngineFactory, e, steps[1..], obs[1..]));
        SentMirrorsRun(e, steps[1..], obs[1..], p.output);
        MirrorsCons(g, d, log, SentFrom(steps[1..], obs[1..]), NonTokens(Heard(EngineFactory, e, steps[1..], obs[1..])),
                    Rows(EngineFactory, e, steps[1..], obs[1..], p.output),
                    RunFrom(EngineFactory, e, steps[1..], obs[1..], p.output).error);
      }
    }
  }

  // What the streaming RPC sends is the channel's non-token events, with each row's error text added.
  lemma GrpcMirrorsChannel(e: nat, parsed: Option<seq<StepDef>>, obs: seq<Obs>)
    requires parsed.Some? ==> |parsed.value| <= |obs|
    ensures var run := Execute(EngineFactory, e, parsed, obs);
            Mirrors(SentBy(parsed, obs), NonTokens(EventsOf(run.effects)), LogsOf(run.effects), run.error)
  {
    var steps := if parsed.None? then [] else parsed.value;
    RunReads(EngineFactory, e, steps, obs, "{}");
    SentMirrorsRun(e, steps, obs, "{}");
  }

  // ----- rebuilding AI outputs from the channel alone -----

  // A listener collects token text, notes the end marker, and at step_done books the text as that
  // step's output document if the marker was seen.
  datatype Listener = Listener(text: string, ended: bool, outputs: seq<(string, string)>)

  function Hear(l: Listener, e: Event): Listener {
    match e
    case AiToken(_, token, last) => if last then l.(ended := true) else l.(text := l.text + token)
    case StepDone(_, stepId, _, _) =>
      Listener("", false, if l.ended then l.outputs + [(stepId, OutputDoc(l.text))] else l.outputs)
    case Finished(_, _) => l
  }

  function HearAll(l: Listener, es: seq<Event>): Listener
    decreases |es|
  {
    if es == [] then l else HearAll(Hear(l, es[0]), es[1..])
  }

  lemma {:induction false} HearAppend(l: Listener, a: seq<Event>, b: seq<Event>)
    ensures HearAll(l, a + b) == HearAll(HearAll(l, a), b)
    decreases |a|
  {
    if a == [] { assert a + b == b; }
    else {
      assert (a + b)[1..] == a[1..] + b;
      HearAppend(Hear(l, a[0]), a[1..], b);
    }
  }

  lemma {:induction false} HearTokens(l: Listener, stepId: string, ts: seq<string>)
    ensures HearAll(l, TokenEvents(stepId, ts)) == l.(text := l.text + Concat(ts))
    decreases |ts|
  {
    if ts == [] {
      assert l.text + "" == l.text;
    } else {
      var head := if ts[0] == "" then [] else [AiToken(stepId, ts[0], false)];
      var l' := l.(text := l.text + ts[0]);
      assert ts[0] != "" ==> head[1..] == [];
      assert ts[0] == "" ==> l.text + ts[0] == l.text;
      assert HearAll(l, head) == l';
      HearAppend(l, head, TokenEvents(stepId, ts[1..]));
      HearTokens(l', stepId, ts[1..]);
      assert l.text + ts[0] + Concat(ts[1..]) == l.text + (ts[0] + Concat(ts[1..]));
    }
  }

  lemma HearStream(l: Listener, stepId: string, s: Stream)
    ensures HearAll(l, AiEvents(stepId, s)) == Listener(l.text + Concat(Texts(s)), l.ended || s.error.None?, l.outputs)
  {
    var tail := if s.error.None? then [AiToken(stepId, "", true)] else [];
    assert s.error.None? ==> tail[1..] == [];
    HearTokens(l, stepId, Texts(s));
    HearAppend(l, TokenEvents(stepId, Texts(s)), tail);
  }

  lemma HearStep(l: Listener, e: nat, step: StepDef, obs: Obs)
    requires l.text == "" && !l.ended
    ensures var p := Perform(EngineFactory, step, obs);
            var heard := if step.kind == "ai_task" && p.status == "success" then [(step.id, p.output)] else [];
            HearAll(l, StepEvents(e, step, p, obs)) == l.(outputs := l.outputs + heard)
  {
    var p := Perform(EngineFactory, step, obs);
    var done := [StepDone(e, step.id, p.status, obs.durationMs)];
    HearAppend(l, p.events, done);
    assert done[1..] == [];
    if step.kind == "ai_task" && obs.config.None? && obs.prompt.None? {
      HearStream(l, step.id, obs.stream);
      assert "" + Concat(Texts(obs.stream)) == Concat(Texts(obs.stream));
    } else {
      assert p.events == [];
    }
  }

  function AiOutput(log: StepLog): seq<(string, string)> {
    if log.kind == "ai_task" && log.status == "success" then [(log.stepId, log.output)] else []
  }

  function AiOutputs(logs: seq<StepLog>): seq<(string, string)> {
    if logs == [] then [] else AiOutput(logs[0]) + AiOutputs(logs[1..])
  }

  lemma HearStepThen(l: Listener, e: nat, step: StepDef, input: string, obs: Obs, tail: seq<Event>)
    requires l.text == "" && !l.ended
    ensures var p := Perform(EngineFactory, step, obs);
            HearAll(l, StepEvents(e, step, p, obs) + tail)
              == HearAll(l.(outputs := l.outputs + AiOutput(LogOf(e, step, input, p, obs))), tail)
  {
    HearStep(l, e, step, obs);
    HearAppend(l, StepEvents(e, step, Perform(EngineFactory, step, obs), obs), tail);
  }

  lemma HearOver(l: Listener, e: nat, status: string)
    ensures HearAll(l, [Finished(e, status)]) == l
  {
    assert [Finished(e, status)][1..] == [];
  }

  lemma OutputsCons(log: StepLog, later: seq<StepLog>)
    ensures AiOutputs([log] + later) == AiOutput(log) + AiOutputs(later)
  {
    assert ([log] + later)[1..] == later;
  }

  lemma {:induction false} HearRun(l: Listener, e: nat, steps: seq<StepDef>, obs: seq<Obs>, input: string)
    requires |steps| <= |obs| && l.text == "" && !l.ended
    ensures HearAll(l, Heard(EngineFactory, e, steps, obs))
         == l.(outputs := l.outputs + AiOutputs(Rows(EngineFactory, e, steps, obs, input)))
    decreases |steps|
  {
    if steps == [] {
      HearOver(l, e, "success");
    } else {
      var p := Perform(EngineFactory, steps[0], obs[0]);
      var log := LogOf(e, steps[0], input, p, obs[0]);
      var l' := l.(outputs := l.outputs + AiOutput(log));
      var later := if p.status == "failed" then [] else Rows(EngineFactory, e, steps[1..], obs[1..], p.output);
      var tail := if p.status == "failed" then [Finished(e, "failed")]
                  else Heard(EngineFactory, e, steps[1..], obs[1..]);
      HearStepThen(l, e, steps[0], input, obs[0], tail);
      if p.status == "failed" {
        HearOver(l', e, "failed");
      } else {
        HearRun(l', e, steps[1..], obs[1..], p.output);
      }
      HearJoin(l, l', log, later, StepEvents(e, steps[0], p, obs[0]) + tail, tail);
    }
  }

  lemma HearJoin(l: Listener, l': Listener, log: StepLog, later: seq<StepLog>, all: seq<Event>, tail: seq<Event>)
    requires l' == l.(outputs := l.outputs + AiOutput(log)) && HearAll(l, all) == HearAll(l', tail)
    requires HearAll(l', tail) == l'.(outputs := l'.outputs + AiOutputs(later))
    ensures HearAll(l, all) == l.(outputs := l.outputs + AiOutputs([log] + later))
  {
    OutputsCons(log, later);
    Assoc(l.outputs, AiOutput(log), AiOutputs(later));
  }

  // A client that hears a lone execution from its start rebuilds exactly the logged output document of
  // every successful AI step, in order.
  lemma ListenerRebuildsOutputs(e: nat, parsed: Option<seq<StepDef>>, obs: seq<Obs>)
    requires parsed.Some? ==> |parsed.value| <= |obs|
    ensures var run := Execute(EngineFactory, e, parsed, obs);
            HearAll(Listener("", false, []), EventsOf(run.effects)).outputs == AiOutputs(LogsOf(run.effects))
  {
    var steps := if parsed.None? then [] else parsed.value;
    RunReads(EngineFactory, e, steps, obs, "{}");
    HearRun(Listener("", false, []), e, steps, obs, "{}");
  }
}
