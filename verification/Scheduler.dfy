/** The minute scheduler: which schedules a check fires, which minutes a run checks, and how often each
    matching minute therefore triggers. Times are seconds; a minute is a number of whole minutes. */
module Scheduler {
  import opened Json
  import opened Producers
  import opened Sequences
  import S = System

  // ----- five-field expressions -----

  datatype Civil = Civil(minute: nat, hour: nat, day: nat, month: nat, weekday: nat)

  datatype Fields = Fields(minutes: set<nat>, hours: set<nat>, days: set<nat>, months: set<nat>, weekdays: set<nat>,
                           dayStar: bool, weekdayStar: bool)

  // With a star in either day field both must agree, else one of them is enough.
  predicate DayMatches(f: Fields, c: Civil) {
    if f.dayStar || f.weekdayStar then c.day in f.days && c.weekday in f.weekdays
    else c.day in f.days || c.weekday in f.weekdays
  }

  predicate Matches(f: Fields, c: Civil) {
    c.minute in f.minutes && c.hour in f.hours && c.month in f.months && DayMatches(f, c)
  }

  // The calendar gives each minute its civil reading; the search for the next activation that a check in
  // minute m makes, from the minute before on, ends with minute horizon(m).
  datatype Clock = Clock(civil: nat -> Civil, horizon: nat -> nat)

  // The cron library's Next, in minutes: the least match after `after` up to the horizon, or its zero time.
  function NextFrom(f: Fields, civil: nat -> Civil, m: nat, last: nat): Option<nat>
    decreases last + 1 - m
  {
    if m > last then None
    else if Matches(f, civil(m)) then Some(m)
    else NextFrom(f, civil, m + 1, last)
  }

  predicate NoMatchIn(f: Fields, civil: nat -> Civil, from: nat, to: nat) {
    forall k :: from <= k < to ==> !Matches(f, civil(k))
  }

  lemma {:induction false} NextIsLeast(f: Fields, civil: nat -> Civil, m: nat, last: nat)
    ensures match NextFrom(f, civil, m, last)
            case Some(k) => m <= k <= last && Matches(f, civil(k)) && NoMatchIn(f, civil, m, k)
            case None => NoMatchIn(f, civil, m, last + 1)
    decreases last + 1 - m
  {
    if m <= last && !Matches(f, civil(m)) { NextIsLeast(f, civil, m + 1, last); }
  }

  // The window test: the next activation after the previous minute lies before one second into this one. The
  // zero time lies before every instant.
  predicate Fires(f: Fields, clock: Clock, m: nat)
  {
    match NextFrom(f, clock.civil, m, clock.horizon(m))
    case Some(k) => 60 * k < 60 * m + 1
    case None => true
  }

  predicate NoMatchAhead(f: Fields, clock: Clock, m: nat) {
    NoMatchIn(f, clock.civil, m, clock.horizon(m) + 1)
  }

  // A check fires exactly when its minute matches, or when nothing matches up to the library's horizon.
  lemma FiresExactly(f: Fields, clock: Clock, m: nat)
    requires m <= clock.horizon(m)
    ensures Fires(f, clock, m) <==> Matches(f, clock.civil(m)) || NoMatchAhead(f, clock, m)
  {
    NextIsLeast(f, clock.civil, m, clock.horizon(m));
  }

  // So a check fires for the matching minutes alone exactly when the expression has a match within each horizon.
  lemma FiresOnMatchesExactly(f: Fields, clock: Clock, m: nat)
    requires m <= clock.horizon(m)
    ensures (Fires(f, clock, m) <==> Matches(f, clock.civil(m))) <==> !NoMatchAhead(f, clock, m)
  {
    FiresExactly(f, clock, m);
    if NoMatchAhead(f, clock, m) { assert !Matches(f, clock.civil(m)); }
  }

  // The thirtieth of February: every check of every calendar fires it.
  lemma ImpossibleDateAlwaysFires(f: Fields, clock: Clock, m: nat)
    requires m <= clock.horizon(m)
    requires f.months == {2} && f.days == {30} && f.weekdayStar
    requires forall k :: clock.civil(k).month == 2 ==> clock.civil(k).day <= 29
    ensures Fires(f, clock, m) && !Matches(f, clock.civil(m))
  {
    FiresExactly(f, clock, m);
  }

  // Every restricted field binds: with a match ahead, a check fires in a minute exactly if its minute, hour and month
  // are among the given ones and so are its day and its weekday, or one of the two if neither field is a star.
  lemma FieldsDecide(f: Fields, clock: Clock, m: nat)
    requires m <= clock.horizon(m) && !NoMatchAhead(f, clock, m)
    ensures var c := clock.civil(m);
            && (c.minute !in f.minutes || c.hour !in f.hours || c.month !in f.months ==> !Fires(f, clock, m))
            && (c.day !in f.days && c.weekday !in f.weekdays ==> !Fires(f, clock, m))
            && (f.dayStar || f.weekdayStar ==> (c.day !in f.days || c.weekday !in f.weekdays ==> !Fires(f, clock, m)))
            && (c.minute in f.minutes && c.hour in f.hours && c.month in f.months ==>
                  && (c.day in f.days && c.weekday in f.weekdays ==> Fires(f, clock, m))
                  && (!f.dayStar && !f.weekdayStar && (c.day in f.days || c.weekday in f.weekdays) ==>
                        Fires(f, clock, m)))
  {
    FiresExactly(f, clock, m);
  }

  // ----- one check -----

  // The whole minute an instant lies in.
  function Minute(now: nat): nat {
    now / 60
  }

  // Seconds into that minute.
  function Second(now: nat): nat {
    now % 60
  }

  // A row of the workflows table; cron is its parsed expression, if its configuration holds a valid one.
  datatype Workflow = Workflow(id: nat, triggerType: string, active: bool, deleted: bool, cron: Option<Fields>)

  predicate Selected(w: Workflow) {
    w.triggerType == "schedule" && w.active && !w.deleted
  }

  predicate IsDue(w: Workflow, clock: Clock, m: nat)
  {
    Selected(w) && w.cron.Some? && Fires(w.cron.value, clock, m)
  }

  function Due(table: seq<Workflow>, clock: Clock, m: nat): seq<nat>
  {
    if table == [] then []
    else Due(table[..|table| - 1], clock, m)
         + if IsDue(table[|table| - 1], clock, m) then [table[|table| - 1].id] else []
  }

  datatype Firing = Firing(minute: nat, wf: nat)

  function Firings(m: nat, ids: seq<nat>): seq<Firing> {
    if ids == [] then [] else [Firing(m, ids[0])] + Firings(m, ids[1..])
  }

  // What the world does at one check: the table read, and for each row whether its inserts would succeed.
  datatype Check = Check(now: nat, table: Option<seq<Workflow>>, created: nat -> bool, sent: nat -> bool)

  function Rows(c: Check): seq<Workflow> {
    if c.table.None? then [] else c.table.value
  }

  function FiredBy(c: Check, clock: Clock): seq<Firing>
  {
    Firings(Minute(c.now), Due(Rows(c), clock, Minute(c.now)))
  }

  function FiredByAll(checks: seq<Check>, clock: Clock): seq<Firing>
  {
    if checks == [] then []
    else FiredByAll(checks[..|checks| - 1], clock) + FiredBy(checks[|checks| - 1], clock)
  }

  // What the attempts of one check leave in the store, and those of all of them.
  function StoreEach(s: Store, ids: seq<nat>, c: Check): Store {
    if ids == [] then s
    else
      var id := ids[|ids| - 1];
      Attempted(StoreEach(s, ids[..|ids| - 1], c), id, SCHEDULED, None, c.created(id), c.sent(id))
  }

  function StoreAll(s: Store, checks: seq<Check>, clock: Clock): Store {
    if checks == [] then s
    else
      var c := checks[|checks| - 1];
      StoreEach(StoreAll(s, checks[..|checks| - 1], clock), Due(Rows(c), clock, Minute(c.now)), c)
  }

  lemma {:induction false} FiringsSnoc(m: nat, ids: seq<nat>, id: nat)
    ensures Firings(m, ids + [id]) == Firings(m, ids) + [Firing(m, id)]
  {
    if ids == [] { assert ([] + [id])[1..] == []; }
    else {
      assert (ids + [id])[1..] == ids[1..] + [id];
      FiringsSnoc(m, ids[1..], id);
    }
  }

  lemma DueSnoc(table: seq<Workflow>, i: nat, clock: Clock, m: nat)
    requires i < |table|
    ensures Due(table[..i + 1], clock, m)
         == if IsDue(table[i], clock, m) then Due(table[..i], clock, m) + [table[i].id] else Due(table[..i], clock, m)
  {
    assert table[..i + 1][..i] == table[..i];
  }

  lemma StoreSnoc(s: Store, ids: seq<nat>, id: nat, c: Check)
    ensures StoreEach(s, ids + [id], c)
         == Attempted(StoreEach(s, ids, c), id, SCHEDULED, None, c.created(id), c.sent(id))
  {
    assert (ids + [id])[..|ids|] == ids;
  }

  lemma CheckSnoc(checks: seq<Check>, i: nat, clock: Clock, s: Store, fired: seq<Firing>)
    requires i < |checks|
    ensures fired + FiredByAll(checks[..i + 1], clock)
         == fired + FiredByAll(checks[..i], clock) + FiredBy(checks[i], clock)
    ensures StoreAll(s, checks[..i + 1], clock)
         == StoreEach(StoreAll(s, checks[..i], clock), Due(Rows(checks[i]), clock, Minute(checks[i].now)), checks[i])
  {
    assert checks[..i + 1][..i] == checks[..i];
    Assoc(fired, FiredByAll(checks[..i], clock), FiredBy(checks[i], clock));
  }

  // What triggering ids in minute m makes of a list of firings and a store.
  predicate Progress(fired: seq<Firing>, store: Store, fired': seq<Firing>, store': Store, ids: seq<nat>, m: nat,
                     c: Check) {
    fired' == fired + Firings(m, ids) && store' == StoreEach(store, ids, c)
  }

  lemma ProgressSnoc(fired: seq<Firing>, store: Store, fired': seq<Firing>, store': Store, ids: seq<nat>, m: nat,
                     c: Check,
                     id: nat)
    requires Progress(fired, store, fired', store', ids, m, c)
    ensures Progress(fired, store, fired' + [Firing(m, id)],
                     Attempted(store', id, SCHEDULED, None, c.created(id), c.sent(id)), ids + [id], m, c)
  {
    FiringsSnoc(m, ids, id);
    Assoc(fired, Firings(m, ids), [Firing(m, id)]);
    StoreSnoc(store, ids, id, c);
  }

  // What the first n checks make of a list of firings and a store.
  predicate Ran(checks: seq<Check>, n: nat, clock: Clock, fired: seq<Firing>, store: Store, fired': seq<Firing>,
                store': Store) {
    && n <= |checks| && fired' == fired + FiredByAll(checks[..n], clock)
    && store' == StoreAll(store, checks[..n], clock)
  }

  lemma RanNone(checks: seq<Check>, clock: Clock, fired: seq<Firing>, store: Store)
    ensures Ran(checks, 0, clock, fired, store, fired, store)
  {
    assert fired + [] == fired;
  }

  lemma RanSnoc(checks: seq<Check>, n: nat, c: Check, clock: Clock, fired: seq<Firing>, store: Store,
                fired': seq<Firing>, store': Store)
    requires n < |checks| && c == checks[n] && Ran(checks, n, clock, fired, store, fired', store')
    ensures Ran(checks, n + 1, clock, fired, store, fired' + FiredBy(c, clock),
                StoreEach(store', Due(Rows(c), clock, Minute(c.now)), c))
  {
    CheckSnoc(checks, n, clock, store, fired);
  }

  lemma RanAll(checks: seq<Check>, n: nat, clock: Clock, fired: seq<Firing>, store: Store, fired': seq<Firing>,
               store': Store)
    requires Ran(checks, n, clock, fired, store, fired', store') && n == |checks|
    ensures fired' == fired + FiredByAll(checks, clock) && store' == StoreAll(store, checks, clock)
  {
    assert checks[..n] == checks;
  }

  class Scheduler {
    const clock: Clock
    const producer: Producer
    var fired: seq<Firing>

    constructor (clock: Clock, producer: Producer)
      ensures this.clock == clock && this.producer == producer && fired == []
    {
      this.clock, this.producer, fired := clock, producer, [];
    }

    method Trigger(m: nat, wf: nat, c: Check)
      modifies this, producer
      ensures producer.store == Attempted(old(producer.store), wf, SCHEDULED, None, c.created(wf), c.sent(wf))
      ensures fired == old(fired) + [Firing(m, wf)]
    {
      producer.TriggerScheduled(wf, c.created(wf), c.sent(wf));
      fired := fired + [Firing(m, wf)];
    }

    // The loop over the rows, with the minute already truncated.
    method TriggerDue(table: seq<Workflow>, m: nat, c: Check)
      modifies this, producer
      ensures fired == old(fired) + Firings(m, Due(table, clock, m))
      ensures producer.store == StoreEach(old(producer.store), Due(table, clock, m), c)
    {
      var i := 0;
      while i < |table|
        invariant 0 <= i <= |table|
        invariant Progress(old(fired), old(producer.store), fired, producer.store, Due(table[..i], clock, m), m, c)
      {
        var w := table[i];
        DueSnoc(table, i, clock, m);
        if Selected(w) && w.cron.Some? && Fires(w.cron.value, clock, m) {
          ProgressSnoc(old(fired), old(producer.store), fired, producer.store, Due(table[..i], clock, m), m, c, w.id);
          Trigger(m, w.id, c);
        }
        i := i + 1;
      }
      assert table[..|table|] == table;
    }

    // The due rows of the table are triggered in order, each once.
    method CheckAndTrigger(c: Check)
      modifies this, producer
      ensures fired == old(fired) + FiredBy(c, clock)
      ensures producer.store == StoreEach(old(producer.store), Due(Rows(c), clock, Minute(c.now)), c)
    {
      if c.table.None? { return; }
      TriggerDue(c.table.value, c.now / 60, c);
    }

    // One check at once, then one per tick.
    method Run(startup: Check, ticks: seq<Check>)
      modifies this, producer
      ensures fired == old(fired) + FiredByAll([startup] + ticks, clock)
      ensures producer.store == StoreAll(old(producer.store), [startup] + ticks, clock)
    {
      var checks := [startup] + ticks;
      RanNone(checks, clock, fired, producer.store);
      RanSnoc(checks, 0, startup, clock, fired, producer.store, fired, producer.store);
      CheckAndTrigger(startup);
      var i := 1;
      while i < |checks|
        invariant 1 <= i <= |checks|
        invariant Ran(checks, i, clock, old(fired), old(producer.store), fired, producer.store)
      {
        RanSnoc(checks, i, checks[i], clock, old(fired), old(producer.store), fired, producer.store);
        CheckAndTrigger(checks[i]);
        i := i + 1;
      }
      RanAll(checks, i, clock, old(fired), old(producer.store), fired, producer.store);
    }
  }

  // ----- the scheduler as part of the system -----

  // The trigger steps for these workflows: one for each row that could be stored.
  function TriggersFor(ids: seq<nat>, c: Check): seq<S.Step> {
    if ids == [] then []
    else
      var id := ids[|ids| - 1];
      TriggersFor(ids[..|ids| - 1], c) + if c.created(id) then [S.Trigger(id, c.sent(id))] else []
  }

  // The payloads of the messages they publish.
  function SentFor(ids: seq<nat>, c: Check): seq<string> {
    if ids == [] then []
    else
      var id := ids[|ids| - 1];
      SentFor(ids[..|ids| - 1], c) + if c.created(id) && c.sent(id) then ["{\"source\":\"schedule\"}"] else []
  }

  // The attempts of a check are exactly these steps of the system, in order, with these payloads.
  lemma {:induction false} AttemptsAreTriggers(store: Store, payloads: seq<string>, s: S.State, ids: seq<nat>, c: Check)
    requires Mirrors(store, payloads, s)
    ensures S.Legal(s, TriggersFor(ids, c))
    ensures Mirrors(StoreEach(store, ids, c), payloads + SentFor(ids, c), S.After(s, TriggersFor(ids, c)))
  {
    if ids == [] {
      assert payloads + [] == payloads;
    } else {
      var n := |ids| - 1;
      AttemptsAreTriggers(store, payloads, s, ids[..n], c);
      LastAttempt(StoreEach(store, ids[..n], c), payloads + SentFor(ids[..n], c), s, TriggersFor(ids[..n], c), ids[n],
                  c);
      Assoc(payloads, SentFor(ids[..n], c),
            if c.created(ids[n]) && c.sent(ids[n]) then ["{\"source\":\"schedule\"}"] else []);
    }
  }

  lemma LastAttempt(store: Store, payloads: seq<string>, s: S.State, trace: seq<S.Step>, id: nat, c: Check)
    requires S.Legal(s, trace) && Mirrors(store, payloads, S.After(s, trace))
    ensures var trace' := trace + if c.created(id) then [S.Trigger(id, c.sent(id))] else [];
            && S.Legal(s, trace')
            && Mirrors(Attempted(store, id, SCHEDULED, None, c.created(id), c.sent(id)),
                       payloads + if c.created(id) && c.sent(id) then ["{\"source\":\"schedule\"}"] else [],
                       S.After(s, trace'))
  {
    assert trace + [] == trace && payloads + [] == payloads;
    if c.created(id) {
      AttemptIsTrigger(store, payloads, S.After(s, trace), id, SCHEDULED, None, c.sent(id));
      OneTrigger(s, trace, S.Trigger(id, c.sent(id)));
    }
  }

  lemma OneTrigger(s: S.State, trace: seq<S.Step>, x: S.Step)
    requires S.Legal(s, trace) && S.Enabled(S.After(s, trace), x)
    ensures S.Legal(s, trace + [x]) && S.After(s, trace + [x]) == S.Apply(S.After(s, trace), x)
  {
    assert [x][1..] == [] && S.Legal(S.Apply(S.After(s, trace), x), []);
    S.Then(s, trace, [x]);
  }

  // ----- how often a minute fires -----

  function Count(fs: seq<Firing>, f: Firing): nat {
    if fs == [] then 0 else (if fs[0] == f then 1 else 0) + Count(fs[1..], f)
  }

  function Times(ids: seq<nat>, id: nat): nat {
    if ids == [] then 0 else (if ids[0] == id then 1 else 0) + Times(ids[1..], id)
  }

  lemma {:induction false} CountAppend(a: seq<Firing>, b: seq<Firing>, f: Firing)
    ensures Count(a + b, f) == Count(a, f) + Count(b, f)
  {
    if a == [] { assert a + b == b; }
    else {
      assert (a + b)[1..] == a[1..] + b;
      CountAppend(a[1..], b, f);
    }
  }

  lemma {:induction false} TimesAppend(a: seq<nat>, b: seq<nat>, id: nat)
    ensures Times(a + b, id) == Times(a, id) + Times(b, id)
  {
    if a == [] { assert a + b == b; }
    else {
      assert (a + b)[1..] == a[1..] + b;
      TimesAppend(a[1..], b, id);
    }
  }

  lemma {:induction false} CountFirings(m: nat, ids: seq<nat>, f: Firing)
    ensures Count(Firings(m, ids), f) == if f.minute == m then Times(ids, f.wf) else 0
  {
    if ids != [] {
      assert Firings(m, ids)[1..] == Firings(m, ids[1..]);
      CountFirings(m, ids[1..], f);
    }
  }

  predicate Fresh(id: nat, table: seq<Workflow>) {
    forall i :: 0 <= i < |table| ==> table[i].id != id
  }

  // No two rows of the table have the same id.
  predicate UniqueIds(table: seq<Workflow>) {
    table == [] || (UniqueIds(table[..|table| - 1]) && Fresh(table[|table| - 1].id, table[..|table| - 1]))
  }

  // How many rows with this id are due.
  function DueRows(table: seq<Workflow>, clock: Clock, m: nat, id: nat): nat {
    if table == [] then 0
    else
      var w := table[|table| - 1];
      DueRows(table[..|table| - 1], clock, m, id) + if IsDue(w, clock, m) && w.id == id then 1 else 0
  }

  lemma {:induction false} DueRowsCount(table: seq<Workflow>, clock: Clock, m: nat, id: nat)
    ensures DueRows(table, clock, m, id) == Times(Due(table, clock, m), id)
  {
    if table != [] {
      var n := |table| - 1;
      var last := if IsDue(table[n], clock, m) then [table[n].id] else [];
      DueRowsCount(table[..n], clock, m, id);
      TimesAppend(Due(table[..n], clock, m), last, id);
      assert last != [] ==> last[1..] == [];
    }
  }

  lemma {:induction false} FreshNotDue(table: seq<Workflow>, clock: Clock, m: nat, id: nat)
    requires Fresh(id, table)
    ensures DueRows(table, clock, m, id) == 0
  {
    if table != [] { FreshNotDue(table[..|table| - 1], clock, m, id); }
  }

  // A check triggers each due row of the table once and no other.
  lemma {:induction false} DueOnce(table: seq<Workflow>, clock: Clock, m: nat, i: nat)
    requires UniqueIds(table) && i < |table|
    ensures DueRows(table, clock, m, table[i].id) == if IsDue(table[i], clock, m) then 1 else 0
  {
    var n := |table| - 1;
    if i < n {
      assert table[..n][i] == table[i];
      DueOnce(table[..n], clock, m, i);
    } else {
      FreshNotDue(table[..n], clock, m, table[n].id);
    }
  }

  // ----- which minutes are checked -----

  // Tick number k of a ticker created at c is received with some lag; it falls in the k-th minute after c's
  // exactly when the lag does not carry it over the minute's end.
  lemma LagExactly(c: nat, k: nat, lag: nat)
    ensures Minute(c + 60 * k + lag) == Minute(c) + k <==> InTime(c, lag)
  {
  }

  // Check 0 is the startup check, in the minute in which the ticker is created at c; check k is the k-th tick.
  predicate Ticking(checks: seq<Check>, c: nat, lags: seq<nat>) {
    && |lags| == |checks| > 0
    && Minute(checks[0].now) == Minute(c)
    && forall k :: 0 < k < |checks| ==> checks[k].now == c + 60 * k + lags[k]
  }

  predicate InTime(c: nat, lag: nat) {
    Second(c) + lag < 60
  }

  predicate Punctual(c: nat, lags: seq<nat>) {
    forall k :: 0 < k < |lags| ==> InTime(c, lags[k])
  }

  predicate MinuteByMinute(checks: seq<Check>, first: nat) {
    forall k :: 0 <= k < |checks| ==> Minute(checks[k].now) == first + k
  }

  // The checks visit the minutes from the start on one by one exactly when no tick's lag leaves its minute.
  lemma PunctualExactly(checks: seq<Check>, c: nat, lags: seq<nat>)
    requires Ticking(checks, c, lags)
    ensures MinuteByMinute(checks, Minute(c)) <==> Punctual(c, lags)
  {
    forall k | 0 < k < |checks| ensures Minute(checks[k].now) == Minute(c) + k <==> InTime(c, lags[k]) {
      LagExactly(c, k, lags[k]);
    }
  }

  // How many times the checks trigger workflow f.wf in minute f.minute.
  function HowOften(checks: seq<Check>, clock: Clock, f: Firing): nat {
    if checks == [] then 0
    else
      var c := checks[|checks| - 1];
      HowOften(checks[..|checks| - 1], clock, f)
      + if Minute(c.now) == f.minute then DueRows(Rows(c), clock, f.minute, f.wf) else 0
  }

  lemma {:induction false} HowOftenCounts(checks: seq<Check>, clock: Clock, f: Firing)
    ensures HowOften(checks, clock, f) == Count(FiredByAll(checks, clock), f)
  {
    if checks != [] {
      var n := |checks| - 1;
      HowOftenCounts(checks[..n], clock, f);
      CountAppend(FiredByAll(checks[..n], clock), FiredBy(checks[n], clock), f);
      CountFirings(Minute(checks[n].now), Due(Rows(checks[n]), clock, Minute(checks[n].now)), f);
      DueRowsCount(Rows(checks[n]), clock, f.minute, f.wf);
    }
  }

  lemma {:induction false} CheckedOnce(checks: seq<Check>, clock: Clock, first: nat, f: Firing)
    requires MinuteByMinute(checks, first)
    ensures HowOften(checks, clock, f)
         == if first <= f.minute < first + |checks| then DueRows(Rows(checks[f.minute - first]), clock, f.minute, f.wf)
            else 0
  {
    if checks != [] {
      var n := |checks| - 1;
      CheckedOnce(checks[..n], clock, first, f);
      assert first <= f.minute < first + n ==> checks[..n][f.minute - first] == checks[f.minute - first];
    }
  }

  // Over any number of ticks whose lag stays within the minute, each minute from the start on triggers each
  // row of the table read in it exactly once if the row is due, and otherwise not.
  lemma FiresExactlyOnce(checks: seq<Check>, clock: Clock, c: nat, lags: seq<nat>, k: nat, i: nat)
    requires Ticking(checks, c, lags) && Punctual(c, lags)
    requires k < |checks| && UniqueIds(Rows(checks[k])) && i < |Rows(checks[k])|
    ensures var w, m := Rows(checks[k])[i], Minute(c) + k;
            HowOften(checks, clock, Firing(m, w.id)) == if IsDue(w, clock, m) then 1 else 0
  {
    PunctualExactly(checks, c, lags);
    CheckedOnce(checks, clock, Minute(c), Firing(Minute(c) + k, Rows(checks[k])[i].id));
    DueOnce(Rows(checks[k]), clock, Minute(c) + k, i);
  }

  // And nothing else is triggered: no workflow outside the table of its minute, and nothing in another minute.
  lemma NoOtherWorkflowFires(checks: seq<Check>, clock: Clock, c: nat, lags: seq<nat>, k: nat, wf: nat)
    requires Ticking(checks, c, lags) && Punctual(c, lags) && k < |checks| && Fresh(wf, Rows(checks[k]))
    ensures HowOften(checks, clock, Firing(Minute(c) + k, wf)) == 0
  {
    PunctualExactly(checks, c, lags);
    CheckedOnce(checks, clock, Minute(c), Firing(Minute(c) + k, wf));
    FreshNotDue(Rows(checks[k]), clock, Minute(c) + k, wf);
  }

  lemma NoOtherMinuteFires(checks: seq<Check>, clock: Clock, c: nat, lags: seq<nat>, f: Firing)
    requires Ticking(checks, c, lags) && Punctual(c, lags)
    requires f.minute < Minute(c) || Minute(c) + |checks| <= f.minute
    ensures HowOften(checks, clock, f) == 0
  {
    PunctualExactly(checks, c, lags);
    CheckedOnce(checks, clock, Minute(c), f);
  }

  // In terms of the expression: an active schedule in the table of its minute is triggered once in a minute
  // it matches, and not at all in a minute it does not match if it has a match ahead.
  lemma MatchingMinuteFiresOnce(checks: seq<Check>, clock: Clock, c: nat, lags: seq<nat>, k: nat, i: nat)
    requires Ticking(checks, c, lags) && Punctual(c, lags)
    requires k < |checks| && UniqueIds(Rows(checks[k])) && i < |Rows(checks[k])|
    requires var w := Rows(checks[k])[i]; w.triggerType == "schedule" && w.active && !w.deleted && w.cron.Some?
    requires Minute(c) + k <= clock.horizon(Minute(c) + k)
    ensures var w, m := Rows(checks[k])[i], Minute(c) + k;
            && (Matches(w.cron.value, clock.civil(m)) ==> HowOften(checks, clock, Firing(m, w.id)) == 1)
            && (!Matches(w.cron.value, clock.civil(m)) && !NoMatchAhead(w.cron.value, clock, m) ==>
                  HowOften(checks, clock, Firing(m, w.id)) == 0)
  {
    FiresExactlyOnce(checks, clock, c, lags, k, i);
    FiresExactly(Rows(checks[k])[i].cron.value, clock, Minute(c) + k);
  }

  // A row that is not an active, undeleted schedule with a cron expression.
  predicate Barred(w: Workflow) {
    w.triggerType != "schedule" || !w.active || w.deleted || w.cron.None?
  }

  predicate AllBarred(table: seq<Workflow>, id: nat) {
    forall i :: 0 <= i < |table| && table[i].id == id ==> Barred(table[i])
  }

  lemma {:induction false} BarredNotDue(table: seq<Workflow>, clock: Clock, m: nat, id: nat)
    requires AllBarred(table, id)
    ensures DueRows(table, clock, m, id) == 0
  {
    if table != [] { BarredNotDue(table[..|table| - 1], clock, m, id); }
  }

  // Over arbitrary checks: a workflow whose rows in a minute's tables are all barred is triggered 0 times in it.
  lemma {:induction false} BarredNeverFires(checks: seq<Check>, clock: Clock, f: Firing)
    requires forall k :: 0 <= k < |checks| && Minute(checks[k].now) == f.minute ==> AllBarred(Rows(checks[k]), f.wf)
    ensures Count(FiredByAll(checks, clock), f) == 0
  {
    HowOftenCounts(checks, clock, f);
    if checks != [] {
      var n := |checks| - 1;
      BarredNeverFires(checks[..n], clock, f);
      HowOftenCounts(checks[..n], clock, f);
      if Minute(checks[n].now) == f.minute { BarredNotDue(Rows(checks[n]), clock, f.minute, f.wf); }
    }
  }

  // One arbitrary check: an active, undeleted schedule whose expression matches the minute is triggered once.
  lemma ActiveScheduleFiresOnce(c: Check, clock: Clock, i: nat)
    requires UniqueIds(Rows(c)) && i < |Rows(c)| && Minute(c.now) <= clock.horizon(Minute(c.now))
    requires var w := Rows(c)[i];
             && w.triggerType == "schedule" && w.active && !w.deleted && w.cron.Some?
             && Matches(w.cron.value, clock.civil(Minute(c.now)))
    ensures Count(FiredBy(c, clock), Firing(Minute(c.now), Rows(c)[i].id)) == 1
  {
    var m := Minute(c.now);
    FiresExactly(Rows(c)[i].cron.value, clock, m);
    DueOnce(Rows(c), clock, m, i);
    DueRowsCount(Rows(c), clock, m, Rows(c)[i].id);
    CountFirings(m, Due(Rows(c), clock, m), Firing(m, Rows(c)[i].id));
  }

  lemma {:induction false} UncheckedNeverFires(checks: seq<Check>, clock: Clock, f: Firing)
    requires forall k :: 0 <= k < |checks| ==> Minute(checks[k].now) != f.minute
    ensures HowOften(checks, clock, f) == 0
  {
    if checks != [] {
      var n := |checks| - 1;
      UncheckedNeverFires(checks[..n], clock, f);
    }
  }

  // The lag carries a tick d minutes on from its own.
  predicate Lands(c: nat, lag: nat, d: nat) {
    60 * d <= Second(c) + lag < 60 * (d + 1)
  }

  lemma LandsExactly(c: nat, j: nat, lag: nat, k: nat)
    ensures Minute(c + 60 * j + lag) == Minute(c) + k <==> j <= k && Lands(c, lag, k - j)
  {
  }

  ghost predicate Visited(checks: seq<Check>, m: nat) {
    exists j :: 0 <= j < |checks| && Minute(checks[j].now) == m
  }

  // Minute k from the start is checked exactly if it is the first, or its own tick or an earlier one lands in it.
  lemma VisitedExactly(checks: seq<Check>, c: nat, lags: seq<nat>, k: nat)
    requires Ticking(checks, c, lags)
    ensures Visited(checks, Minute(c) + k) <==>
              k == 0 || exists j :: 0 < j < |checks| && j <= k && Lands(c, lags[j], k - j)
  {
    forall j | 0 < j < |checks|
      ensures Minute(checks[j].now) == Minute(c) + k <==> j <= k && Lands(c, lags[j], k - j) {
      LandsExactly(c, j, lags[j], k);
    }
    if k == 0 { assert Minute(checks[0].now) == Minute(c) + k; }
  }

  // The bound on the lag is needed: a tick received over the end of its minute loses that minute for every
  // workflow, unless an earlier tick was so late that it landed there.
  lemma LateTickLosesMinute(checks: seq<Check>, clock: Clock, c: nat, lags: seq<nat>, k: nat, wf: nat)
    requires Ticking(checks, c, lags) && 0 < k < |checks| && !InTime(c, lags[k])
    requires forall j :: 0 < j < k ==> !Lands(c, lags[j], k - j)
    ensures HowOften(checks, clock, Firing(Minute(c) + k, wf)) == 0
  {
    VisitedExactly(checks, c, lags, k);
    assert !Visited(checks, Minute(c) + k);
    UncheckedNeverFires(checks, clock, Firing(Minute(c) + k, wf));
  }
}
