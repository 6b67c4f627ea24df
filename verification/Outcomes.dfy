/** What the stored rows and the published events of a run say of the steps' runners, read from the outside alone: for
    each of the three loops, what a runner returns, refuses or streams. */
module Outcomes {
  import opened Json
  import opened Events
  import opened AiRunner
  import opened Engine
  import opened EngineFacts
  import opened Sequences

  // The kinds that both services run.
  predicate CommonKind(kind: string) {
    kind in ["http_request", "transform", "delay", "condition", "send_email"]
  }

  predicate IsAi(f: Factory, kind: string) {
    f.EngineFactory? && kind == "ai_task"
  }

  predicate TellsFailure(row: StepLog, message: string) {
    row.status == "failed" && row.error == message && row.output == "null"
  }

  predicate TellsSuccess(row: StepLog, output: string) {
    row.status == "success" && row.error == "" && row.output == output
  }

  predicate TellsResult(row: StepLog, r: Result<string>) {
    match r
    case Ok(doc) => TellsSuccess(row, doc)
    case Err(m) => TellsFailure(row, m)
  }

  // The row of a step is that of its definition and its clock, and tells what its runner did: a kind that the service
  // does not know and a refused configuration fail with their message, any other runner as it returned, an AI step as
  // its prompt and its stream did.
  predicate Tells(f: Factory, step: StepDef, obs: Obs, row: StepLog) {
    && row.stepId == step.id && row.kind == step.kind && row.durationMs == obs.durationMs
    && (!CommonKind(step.kind) && !IsAi(f, step.kind) ==> TellsFailure(row, "unknown step type: " + step.kind))
    && (CommonKind(step.kind) || IsAi(f, step.kind) ==>
          && (obs.config.Some? ==> TellsFailure(row, obs.config.value))
          && (obs.config.None? && CommonKind(step.kind) ==> TellsResult(row, obs.plain))
          && (obs.config.None? && IsAi(f, step.kind) ==>
                && (obs.prompt.Some? ==> TellsFailure(row, "ai_task: render prompt: " + obs.prompt.value))
                && (obs.prompt.None? ==> TellsResult(row, AiResult(obs.stream)))))
  }

  // The tokens of a step: those of its stream, if it gets that far.
  function Spoken(f: Factory, step: StepDef, obs: Obs): seq<Event> {
    if IsAi(f, step.kind) && obs.config.None? && obs.prompt.None? then AiEvents(step.id, obs.stream) else []
  }

  // What a listener hears of a run with these rows before its end: each step's tokens, then its row's outcome.
  function Announced(f: Factory, e: nat, steps: seq<StepDef>, obs: seq<Obs>, rows: seq<StepLog>): seq<Event>
    requires |rows| <= |steps| <= |obs|
    decreases |rows|
  {
    if rows == [] then []
    else
      Spoken(f, steps[0], obs[0]) + [StepDone(e, rows[0].stepId, rows[0].status, rows[0].durationMs)]
      + Announced(f, e, steps[1..], obs[1..], rows[1..])
  }

  lemma RowTells(f: Factory, e: nat, step: StepDef, input: string, obs: Obs)
    ensures Tells(f, step, obs, LogOf(e, step, input, Perform(f, step, obs), obs))
    ensures Perform(f, step, obs).events == Spoken(f, step, obs)
  {
  }

  ghost predicate AllTell(f: Factory, steps: seq<StepDef>, obs: seq<Obs>, rows: seq<StepLog>) {
    |rows| <= |steps| <= |obs| && forall j :: 0 <= j < |rows| ==> Tells(f, steps[j], obs[j], rows[j])
  }

  lemma AllTellCons(f: Factory, steps: seq<StepDef>, obs: seq<Obs>, row: StepLog, later: seq<StepLog>)
    requires steps != [] && obs != [] && Tells(f, steps[0], obs[0], row) && AllTell(f, steps[1..], obs[1..], later)
    ensures AllTell(f, steps, obs, [row] + later)
  {
    var rows := [row] + later;
    forall j | 0 <= j < |rows| ensures Tells(f, steps[j], obs[j], rows[j]) {
      if j > 0 { assert steps[j] == steps[1..][j - 1] && obs[j] == obs[1..][j - 1] && rows[j] == later[j - 1]; }
    }
  }

  lemma {:induction false} RowsTell(f: Factory, e: nat, steps: seq<StepDef>, obs: seq<Obs>, input: string)
    requires |steps| <= |obs|
    ensures AllTell(f, steps, obs, Rows(f, e, steps, obs, input))
    decreases |steps|
  {
    if steps != [] {
      var p := Perform(f, steps[0], obs[0]);
      var row := LogOf(e, steps[0], input, p, obs[0]);
      RowTells(f, e, steps[0], input, obs[0]);
      if p.status == "failed" {
        AllTellCons(f, steps, obs, row, []);
        assert [row] + [] == [row];
      } else {
        RowsTell(f, e, steps[1..], obs[1..], p.output);
        AllTellCons(f, steps, obs, row, Rows(f, e, steps[1..], obs[1..], p.output));
      }
    }
  }

  lemma {:induction false} HeardTells(f: Factory, e: nat, steps: seq<StepDef>, obs: seq<Obs>, input: string)
    requires |steps| <= |obs|
    ensures var rows := Rows(f, e, steps, obs, input);
            && |rows| <= |steps|
            && Heard(f, e, steps, obs)
               == Announced(f, e, steps, obs, rows) + [Finished(e, RunFrom(f, e, steps, obs, input).status)]
    decreases |steps|
  {
    if steps != [] {
      var p := Perform(f, steps[0], obs[0]);
      var row := LogOf(e, steps[0], input, p, obs[0]);
      RowTells(f, e, steps[0], input, obs[0]);
      if p.status == "failed" {
        AnnouncedCons(f, e, steps, obs, row, []);
        assert [row] + [] == [row];
      } else {
        var later := Rows(f, e, steps[1..], obs[1..], p.output);
        HeardTells(f, e, steps[1..], obs[1..], p.output);
        AnnouncedCons(f, e, steps, obs, row, later);
        Assoc(StepEvents(e, steps[0], p, obs[0]), Announced(f, e, steps[1..], obs[1..], later),
              [Finished(e, RunFrom(f, e, steps[1..], obs[1..], p.output).status)]);
      }
    }
  }

  lemma AnnouncedCons(f: Factory, e: nat, steps: seq<StepDef>, obs: seq<Obs>, row: StepLog, later: seq<StepLog>)
    requires |later| < |steps| <= |obs|
    ensures Announced(f, e, steps, obs, [row] + later)
         == Spoken(f, steps[0], obs[0]) + [StepDone(e, row.stepId, row.status, row.durationMs)]
            + Announced(f, e, steps[1..], obs[1..], later)
  {
    assert ([row] + later)[1..] == later;
  }

  function StepsOf(parsed: Option<seq<StepDef>>): seq<StepDef> {
    if parsed.Some? then parsed.value else []
  }

  // For every loop, every step list and every outside behaviour: each stored row tells what its step's runner did; a
  // failed row is the last, its error is the run's and the run has failed; and rows are missing only after a failure.
  lemma RowsTellOutcomes(f: Factory, e: nat, parsed: Option<seq<StepDef>>, obs: seq<Obs>)
    requires parsed.Some? ==> |parsed.value| <= |obs|
    ensures var run := Execute(f, e, parsed, obs);
            var rows := LogsOf(run.effects);
            && AllTell(f, StepsOf(parsed), obs, rows)
            && (forall j :: 0 <= j < |rows| && rows[j].status == "failed" ==>
                  j == |rows| - 1 && run.status == "failed" && run.error == rows[j].error)
            && (|rows| < |StepsOf(parsed)| ==> rows != [] && rows[|rows| - 1].status == "failed")
  {
    LogsDetermineStatus(f, e, parsed, obs);
    var work := ExecuteShape(f, e, parsed, obs);
    if parsed.None? {
      FinishReads(e, "success", "");
    } else {
      RunReads(f, e, parsed.value, obs, "{}");
      RowsTell(f, e, parsed.value, obs, "{}");
    }
  }

  // And its events are, step by step, the tokens of its stream and the outcome its row tells, and then the verdict.
  lemma EventsTellRows(f: Factory, e: nat, parsed: Option<seq<StepDef>>, obs: seq<Obs>)
    requires parsed.Some? ==> |parsed.value| <= |obs|
    ensures var run := Execute(f, e, parsed, obs);
            var rows := LogsOf(run.effects);
            && |rows| <= |StepsOf(parsed)| <= |obs|
            && EventsOf(run.effects) == Announced(f, e, StepsOf(parsed), obs, rows) + [Finished(e, run.status)]
  {
    if parsed.None? {
      FinishReads(e, "success", "");
    } else {
      RunReads(f, e, parsed.value, obs, "{}");
      HeardTells(f, e, parsed.value, obs, "{}");
    }
  }
}
