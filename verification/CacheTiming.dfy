/** The cached store under interleaving: how old an item served from the cache can be. One workflow is
    followed; every Redis and database operation of every request is a step of its own. Times in seconds. */
module CacheTiming {
  import opened Json
  import WorkflowStore

  type Item = WorkflowStore.Item

  // The row's item from instant `at` on; None while there is no live row.
  datatype Version = Version(at: nat, item: Option<Item>)

  // A request between its database read and its SetEx. src and readAt record which version it read and when.
  datatype Reader = Idle | Loaded(item: Item, src: nat, readAt: nat)

  datatype Entry = Entry(item: Item, expires: nat, src: nat, readAt: nat)

  datatype Served = Served(item: Item, at: nat, src: nat, readAt: nat)

  datatype State = State(now: nat, delta: nat, versions: seq<Version>, cache: Option<Entry>, readers: seq<Reader>,
                         served: seq<Served>)

  function Current(s: State): Option<Item> {
    if s.versions == [] then None else s.versions[|s.versions| - 1].item
  }

  // Load: a request that missed reads the row. SetEx: it caches what it read (ok) or fails to, and answers.
  // Hit: a request is answered from the cache. Write: an update, creation or soft delete of the row. Del: a
  // Redis delete that succeeds; one that fails is no step at all.
  datatype Step =
    | Load(r: nat)
    | SetEx(r: nat, ok: bool)
    | Hit
    | Write(item: Option<Item>)
    | Del
    | Tick(d: nat)

  // delta bounds the gap between a request's database read and its SetEx.
  predicate Enabled(s: State, step: Step) {
    match step
    case Load(r) => r < |s.readers| && s.readers[r].Idle? && Current(s).Some?
    case SetEx(r, _) => r < |s.readers| && s.readers[r].Loaded?
    case Hit => s.cache.Some? && s.now < s.cache.value.expires
    case Write(_) => true
    case Del => true
    case Tick(d) =>
      forall r :: 0 <= r < |s.readers| && s.readers[r].Loaded? ==> s.now + d <= s.readers[r].readAt + s.delta
  }

  function Apply(s: State, step: Step): State
    requires Enabled(s, step)
  {
    match step
    case Load(r) => s.(readers := s.readers[r := Loaded(Current(s).value, |s.versions| - 1, s.now)])
    case SetEx(r, ok) =>
      var x := s.readers[r];
      s.(readers := s.readers[r := Idle],
         cache := if ok then Some(Entry(x.item, s.now + WorkflowStore.TTL, x.src, x.readAt)) else s.cache,
         served := s.served + [Served(x.item, s.now, x.src, x.readAt)])
    case Hit => s.(served := s.served + [Served(s.cache.value.item, s.now, s.cache.value.src, s.cache.value.readAt)])
    case Write(item) => s.(versions := s.versions + [Version(s.now, item)])
    case Del => s.(cache := None)
    case Tick(d) => s.(now := s.now + d)
  }

  predicate Legal(s: State, trace: seq<Step>)
    decreases |trace|
  {
    trace == [] || (Enabled(s, trace[0]) && Legal(Apply(s, trace[0]), trace[1..]))
  }

  function After(s: State, trace: seq<Step>): State
    requires Legal(s, trace)
    decreases |trace|
  {
    if trace == [] then s else After(Apply(s, trace[0]), trace[1..])
  }

  function Init(readers: nat, delta: nat): State {
    State(0, delta, [], None, seq(readers, _ => Idle), [])
  }

  // Version j was the row's value at instant t: written by then, and not replaced before.
  predicate ValueAt(versions: seq<Version>, j: nat, t: nat, item: Item) {
    && j < |versions| && versions[j].item == Some(item) && versions[j].at <= t
    && (j + 1 < |versions| ==> t <= versions[j + 1].at)
  }

  predicate EntryOk(s: State, e: Entry) {
    && ValueAt(s.versions, e.src, e.readAt, e.item)
    && e.readAt <= s.now && e.expires <= e.readAt + s.delta + WorkflowStore.TTL
  }

  predicate ReaderOk(s: State, x: Reader) {
    x.Loaded? ==> ValueAt(s.versions, x.src, x.readAt, x.item) && x.readAt <= s.now <= x.readAt + s.delta
  }

  predicate ServedOk(s: State, x: Served) {
    && ValueAt(s.versions, x.src, x.readAt, x.item)
    && x.readAt <= x.at <= s.now && x.at <= x.readAt + s.delta + WorkflowStore.TTL
  }

  ghost predicate Inv(s: State) {
    && (forall j :: 0 <= j < |s.versions| ==> s.versions[j].at <= s.now)
    && (s.cache.Some? ==> EntryOk(s, s.cache.value))
    && (forall r :: 0 <= r < |s.readers| ==> ReaderOk(s, s.readers[r]))
    && (forall k :: 0 <= k < |s.served| ==> ServedOk(s, s.served[k]))
  }

  lemma WriteKeeps(s: State, item: Option<Item>)
    requires Inv(s)
    ensures Inv(Apply(s, Write(item)))
  {
    var t := Apply(s, Write(item));
    forall j: nat, at: nat, x | ValueAt(s.versions, j, at, x) && at <= s.now ensures ValueAt(t.versions, j, at, x) {}
    forall r | 0 <= r < |t.readers| ensures ReaderOk(t, t.readers[r]) { assert ReaderOk(s, s.readers[r]); }
    forall k | 0 <= k < |t.served| ensures ServedOk(t, t.served[k]) { assert ServedOk(s, s.served[k]); }
  }

  lemma StepKeepsInv(s: State, step: Step)
    requires Inv(s) && Enabled(s, step)
    ensures Inv(Apply(s, step))
  {
    var t := Apply(s, step);
    match step
    case Write(item) => WriteKeeps(s, item);
    case _ =>
      forall r | 0 <= r < |t.readers| ensures ReaderOk(t, t.readers[r]) { assert ReaderOk(s, s.readers[r]); }
      forall k | 0 <= k < |t.served| ensures ServedOk(t, t.served[k]) {
        if k < |s.served| { assert ServedOk(s, s.served[k]); }
      }
  }

  lemma {:induction false} ReachableInv(s: State, trace: seq<Step>)
    requires Inv(s) && Legal(s, trace)
    ensures Inv(After(s, trace))
    decreases |trace|
  {
    if trace != [] {
      StepKeepsInv(s, trace[0]);
      ReachableInv(Apply(s, trace[0]), trace[1..]);
    }
  }

  // Under any interleaving of any number of requests, updates and deletes, and even if no Redis delete ever
  // succeeds, an item served at time t was the row's value at some instant in [t - 300 - delta, t].
  lemma BoundedStaleness(readers: nat, delta: nat, trace: seq<Step>, k: nat)
    requires Legal(Init(readers, delta), trace) && k < |After(Init(readers, delta), trace).served|
    ensures var s := After(Init(readers, delta), trace);
            var x := s.served[k];
            exists j: nat, t: nat :: ValueAt(s.versions, j, t, x.item) && x.at - 300 - delta <= t <= x.at
  {
    ReachableInv(Init(readers, delta), trace);
    var s := After(Init(readers, delta), trace);
    DeltaStays(Init(readers, delta), trace);
    assert ServedOk(s, s.served[k]);
    assert ValueAt(s.versions, s.served[k].src, s.served[k].readAt, s.served[k].item);
  }

  lemma {:induction false} DeltaStays(s: State, trace: seq<Step>)
    requires Legal(s, trace)
    ensures After(s, trace).delta == s.delta
    decreases |trace|
  {
    if trace != [] { DeltaStays(Apply(s, trace[0]), trace[1..]); }
  }

  // ----- when invalidation is enough -----

  predicate Latest(s: State, x: Reader) {
    x.Loaded? ==> x.src == |s.versions| - 1
  }

  // Whatever is cached or about to be cached is the row's latest version.
  ghost predicate UpToDate(s: State) {
    && (s.cache.Some? ==> s.cache.value.src == |s.versions| - 1)
    && (forall r :: 0 <= r < |s.readers| ==> Latest(s, s.readers[r]))
  }

  // Every step but a write keeps it up to date, and while it is, every hit serves the row's latest item.
  lemma UpToDateServesCurrent(s: State, step: Step)
    requires Inv(s) && UpToDate(s) && Enabled(s, step) && !step.Write?
    ensures UpToDate(Apply(s, step))
    ensures step.Hit? ==> Current(s) == Some(Apply(s, step).served[|s.served|].item)
  {
    if step.SetEx? { assert Latest(s, s.readers[step.r]); }
  }

  // ----- exactly when a hit after an update is stale -----

  predicate NoWrite(trace: seq<Step>) {
    forall k :: 0 <= k < |trace| ==> !trace[k].Write?
  }

  // No step of the trace changes the cache.
  predicate Untouched(trace: seq<Step>) {
    forall k :: 0 <= k < |trace| ==> !trace[k].Del? && !(trace[k].SetEx? && trace[k].ok)
  }

  // Request r stands between its database read and its SetEx at s, and still does after these steps.
  predicate HeldSince(s: State, steps: seq<Step>, r: nat) {
    r < |s.readers| && s.readers[r].Loaded? && forall k :: 0 <= k < |steps| ==> !(steps[k].SetEx? && steps[k].r == r)
  }

  // Step k is the last to change the cache: a successful SetEx of a request that had read the row before s.
  predicate LateSet(s: State, trace: seq<Step>, k: nat) {
    && k < |trace| && trace[k].SetEx? && trace[k].ok
    && HeldSince(s, trace[..k], trace[k].r) && Untouched(trace[k + 1..])
  }

  predicate OldReader(s: State, r: nat) {
    r < |s.readers| && s.readers[r].Loaded? && s.readers[r].src + 1 < |s.versions|
  }

  predicate OldCache(s: State) {
    s.cache.Some? && s.cache.value.src + 1 < |s.versions|
  }

  ghost predicate OldSet(s: State, trace: seq<Step>, k: nat) {
    LateSet(s, trace, k) && OldReader(s, trace[k].r)
  }

  lemma ShiftHeld(s: State, step: Step, rest: seq<Step>, r: nat)
    requires Enabled(s, step) && !step.Write?
    ensures HeldSince(s, [step] + rest, r) && OldReader(s, r)
       <==> HeldSince(Apply(s, step), rest, r) && OldReader(Apply(s, step), r)
  {
    var all := [step] + rest;
    assert all[0] == step && forall k :: 0 <= k < |rest| ==> all[k + 1] == rest[k];
    if HeldSince(Apply(s, step), rest, r) && OldReader(Apply(s, step), r) {
      assert forall k :: 0 < k < |all| ==> all[k] == rest[k - 1];
    }
  }

  lemma ShiftSet(s: State, trace: seq<Step>, k: nat)
    requires trace != [] && Enabled(s, trace[0]) && !trace[0].Write? && k < |trace| - 1
    ensures OldSet(s, trace, k + 1) <==> OldSet(Apply(s, trace[0]), trace[1..], k)
  {
    assert trace[..k + 1] == [trace[0]] + trace[1..][..k] && trace[k + 2..] == trace[1..][k + 1..];
    if trace[k + 1].SetEx? { ShiftHeld(s, trace[0], trace[1..][..k], trace[k + 1].r); }
  }

  lemma UntouchedTail(trace: seq<Step>)
    requires trace != []
    ensures Untouched(trace) <==> Untouched([trace[0]]) && Untouched(trace[1..])
  {
    assert forall k :: 0 <= k < |trace| - 1 ==> trace[1..][k] == trace[k + 1];
    if Untouched([trace[0]]) && Untouched(trace[1..]) {
      assert [trace[0]][0] == trace[0];
      forall k | 0 <= k < |trace| ensures !trace[k].Del? && !(trace[k].SetEx? && trace[k].ok) {
        if k > 0 { assert trace[k] == trace[1..][k - 1]; }
      }
    }
  }

  // While nobody writes, what is cached in the end is old exactly if it was old and never changed, or if the
  // last change set an old reader's item.
  lemma {:induction false} EndsOld(s: State, trace: seq<Step>)
    requires Legal(s, trace) && NoWrite(trace)
    ensures After(s, trace).versions == s.versions
    ensures OldCache(After(s, trace)) <==> (Untouched(trace) && OldCache(s)) || exists k: nat :: OldSet(s, trace, k)
    decreases |trace|
  {
    if trace != [] {
      var t, rest := Apply(s, trace[0]), trace[1..];
      assert NoWrite(rest);
      EndsOld(t, rest);
      UntouchedTail(trace);
      HeadSet(s, trace);
      forall k: nat | k < |rest| ensures OldSet(s, trace, k + 1) <==> OldSet(t, rest, k) { ShiftSet(s, trace, k); }
      if k: nat :| OldSet(t, rest, k) { assert OldSet(s, trace, k + 1); }
      if k: nat :| OldSet(s, trace, k) { assert k > 0 ==> OldSet(t, rest, k - 1); }
    }
  }

  lemma HeadSet(s: State, trace: seq<Step>)
    requires trace != [] && Enabled(s, trace[0]) && !trace[0].Write?
    ensures Untouched(trace[1..]) && OldCache(Apply(s, trace[0]))
       <==> (Untouched(trace) && OldCache(s)) || OldSet(s, trace, 0)
  {
    UntouchedTail(trace);
    assert trace[..0] == [];
  }

  // The exact condition for the race, operation by operation. After a write and anything but another write, whether or
  // not its Redis delete has come or succeeded, a hit serves an older version if and only if the last step to change
  // the cache was a successful SetEx of a request that had read the row before the write, or nothing has changed what
  // was cached before the write. The latter is over once a delete has succeeded.
  lemma StaleHitExactly(before: State, item: Option<Item>, trace: seq<Step>)
    requires Inv(before) && Legal(Apply(before, Write(item)), trace) && NoWrite(trace)
    requires Enabled(After(Apply(before, Write(item)), trace), Hit)
    ensures var s := Apply(before, Write(item));
            var t := After(s, trace);
            var stale := Apply(t, Hit).served[|t.served|].src + 1 < |s.versions|;
            && (stale <==> (exists k: nat :: LateSet(s, trace, k)) || (Untouched(trace) && s.cache.Some?))
            && (Del in trace ==> (stale <==> exists k: nat :: LateSet(s, trace, k)))
  {
    var s := Apply(before, Write(item));
    EndsOld(s, trace);
    assert s.cache.Some? ==> OldCache(s);
    forall k: nat | LateSet(s, trace, k) ensures OldSet(s, trace, k) {
      assert ReaderOk(before, before.readers[trace[k].r]);
    }
  }

  // ----- the race -----

  lemma Cons(s: State, step: Step, rest: seq<Step>)
    requires Enabled(s, step) && Legal(Apply(s, step), rest)
    ensures Legal(s, [step] + rest) && After(s, [step] + rest) == After(Apply(s, step), rest)
  {
    assert ([step] + rest)[1..] == rest;
  }

  // An update whose Redis delete succeeds, between a request's database read and its SetEx.
  lemma FirstHalf(before: Item, after: Item, delta: nat) returns (s: State, trace: seq<Step>)
    ensures Legal(Init(1, delta), trace) && s == After(Init(1, delta), trace) && |trace| == 4 && trace[3] == Del
    ensures s == State(0, delta, [Version(0, Some(before)), Version(0, Some(after))], None, [Loaded(before, 0, 0)], [])
  {
    var s0 := Init(1, delta);
    var s1 := Apply(s0, Write(Some(before)));
    var s2 := Apply(s1, Load(0));
    var s3 := Apply(s2, Write(Some(after)));
    s := Apply(s3, Del);
    assert s.readers == [Loaded(before, 0, 0)];
    Cons(s3, Del, []);
    Cons(s2, Write(Some(after)), [Del] + []);
    Cons(s1, Load(0), [Write(Some(after))] + ([Del] + []));
    trace := [Write(Some(before))] + ([Load(0)] + ([Write(Some(after))] + ([Del] + [])));
    Cons(s0, Write(Some(before)), [Load(0)] + ([Write(Some(after))] + ([Del] + [])));
  }

  lemma SecondHalf(s: State, before: Item, after: Item, wait: nat) returns (t: State, trace: seq<Step>)
    requires s.versions == [Version(0, Some(before)), Version(0, Some(after))]
    requires s == State(0, s.delta, s.versions, None, [Loaded(before, 0, 0)], [])
    requires wait < 300
    ensures Legal(s, trace) && t == After(s, trace) && t.versions == s.versions
    ensures |t.served| == 2 && t.served[1].item == before && t.served[1].at == s.delta + wait
  {
    var s1 := Apply(s, Tick(s.delta));
    var s2 := Apply(s1, SetEx(0, true));
    assert s2.readers == [Idle];
    var s3 := Apply(s2, Tick(wait));
    t := Apply(s3, Hit);
    Cons(s3, Hit, []);
    Cons(s2, Tick(wait), [Hit] + []);
    Cons(s1, SetEx(0, true), [Tick(wait)] + ([Hit] + []));
    trace := [Tick(s.delta)] + ([SetEx(0, true)] + ([Tick(wait)] + ([Hit] + [])));
    Cons(s, Tick(s.delta), [SetEx(0, true)] + ([Tick(wait)] + ([Hit] + [])));
  }

  lemma {:induction false} Join(s: State, a: seq<Step>, b: seq<Step>)
    requires Legal(s, a) && Legal(After(s, a), b)
    ensures Legal(s, a + b) && After(s, a + b) == After(After(s, a), b)
    decreases |a|
  {
    if a == [] { assert a + b == b; }
    else {
      assert (a + b)[1..] == a[1..] + b;
      Join(Apply(s, a[0]), a[1..], b);
    }
  }

  // So deleting the key after the update does not avoid the race, and the bound is met to the second: for
  // every delta and every wait under 300 seconds there is a run in which the old item is served delta + wait
  // seconds after an update whose Redis delete succeeded.
  lemma InvalidationRaces(before: Item, after: Item, delta: nat, wait: nat) returns (trace: seq<Step>)
    requires wait < 300
    ensures Legal(Init(1, delta), trace)
    ensures var t := After(Init(1, delta), trace);
            && t.versions == [Version(0, Some(before)), Version(0, Some(after))] && Del in trace
            && |t.served| == 2 && t.served[1].item == before && t.served[1].at == delta + wait
  {
    var s, first := FirstHalf(before, after, delta);
    var t, second := SecondHalf(s, before, after, wait);
    Join(Init(1, delta), first, second);
    assert first[3] == Del && (first + second)[3] == Del;
    trace := first + second;
  }
}
