/** The broker objects both services declare, how a message is routed through them, and the
    x-death list the broker keeps on a dead-lettered message. */
module Topology {
  import opened Json

  datatype Kind = Topic | Direct
  datatype QueueArgs = QueueArgs(ttl: Option<nat>, dlx: string, dlKey: string)
  datatype Binding = Binding(queue: string, key: string, exchange: string)
  datatype Topology = Topology(exchanges: map<string, Kind>, queues: map<string, QueueArgs>, bindings: set<Binding>)

  const EXCHANGE := "workflows"
  const DLX := "workflows.dlx"
  const RUN := "execution.run"
  const RETRY := "execution.retry"
  const KEY := "execution.run"
  const TTL: nat := 10000
  const MAX_RETRIES: nat := 3

  const RUN_ARGS := QueueArgs(None, DLX, KEY)
  const RETRY_ARGS := QueueArgs(Some(TTL), EXCHANGE, KEY)

  const EMPTY := Topology(map[], map[], {})

  // The keys used here hold no wildcard, so a topic exchange matches them like a direct one.
  function Route(t: Topology, exchange: string, key: string): set<string> {
    set b | b in t.bindings && b.exchange == exchange && b.key == key :: b.queue
  }

  // Where a queue's dead letters go.
  function DeadLetterTargets(t: Topology, queue: string): set<string>
    requires queue in t.queues
  {
    Route(t, t.queues[queue].dlx, t.queues[queue].dlKey)
  }

  // ----- declaring -----

  // A declaration is accepted when the name is new or was declared with the same arguments.
  predicate Agrees<T(==)>(m: map<string, T>, name: string, v: T) {
    name in m ==> m[name] == v
  }

  predicate Compatible(t: Topology) {
    Agrees(t.exchanges, EXCHANGE, Topic) && Agrees(t.exchanges, DLX, Direct) &&
    Agrees(t.queues, RUN, RUN_ARGS) && Agrees(t.queues, RETRY, RETRY_ARGS)
  }

  function WithPipeline(t: Topology): Topology {
    Topology(t.exchanges[EXCHANGE := Topic][DLX := Direct],
             t.queues[RUN := RUN_ARGS][RETRY := RETRY_ARGS],
             t.bindings + {Binding(RUN, KEY, EXCHANGE), Binding(RETRY, KEY, DLX)})
  }

  class AmqpChannel {
    var topology: Topology

    constructor ()
      ensures topology == EMPTY
    {
      topology := EMPTY;
    }

    method ExchangeDeclare(name: string, kind: Kind) returns (ok: bool)
      modifies this
      ensures ok <==> Agrees(old(topology).exchanges, name, kind)
      ensures topology == if ok then old(topology).(exchanges := old(topology).exchanges[name := kind])
                          else old(topology)
    {
      ok := name !in topology.exchanges || topology.exchanges[name] == kind;
      if ok { topology := topology.(exchanges := topology.exchanges[name := kind]); }
    }

    method QueueDeclare(name: string, args: QueueArgs) returns (ok: bool)
      modifies this
      ensures ok <==> Agrees(old(topology).queues, name, args)
      ensures topology == if ok then old(topology).(queues := old(topology).queues[name := args]) else old(topology)
    {
      ok := name !in topology.queues || topology.queues[name] == args;
      if ok { topology := topology.(queues := topology.queues[name := args]); }
    }

    method QueueBind(queue: string, key: string, exchange: string) returns (ok: bool)
      modifies this
      ensures ok <==> queue in old(topology).queues && exchange in old(topology).exchanges
      ensures var b := Binding(queue, key, exchange);
              topology == if ok then old(topology).(bindings := old(topology).bindings + {b}) else old(topology)
    {
      ok := queue in topology.queues && exchange in topology.exchanges;
      if ok { topology := topology.(bindings := topology.bindings + {Binding(queue, key, exchange)}); }
    }

    // Runs at the start of the gateway and of the scheduler; the first refusal ends it with an error.
    method DeclareTopology() returns (ok: bool)
      modifies this
      ensures ok <==> Compatible(old(topology))
      ensures ok ==> topology == WithPipeline(old(topology))
    {
      ok := ExchangeDeclare(EXCHANGE, Topic);
      if !ok { return; }
      ok := ExchangeDeclare(DLX, Direct);
      if !ok { return; }
      ok := QueueDeclare(RUN, RUN_ARGS);
      if !ok { return; }
      ok := QueueBind(RUN, KEY, EXCHANGE);
      if !ok { return; }
      ok := QueueDeclare(RETRY, RETRY_ARGS);
      if !ok { return; }
      ok := QueueBind(RETRY, KEY, DLX);
      assert topology.bindings
          == old(topology).bindings + {Binding(RUN, KEY, EXCHANGE), Binding(RETRY, KEY, DLX)};
    }
  }

  const PIPELINE := WithPipeline(EMPTY)

  // What a new broker holds after the declarations, name by name.
  lemma DeclaredObjects()
    ensures PIPELINE.exchanges == map["workflows" := Topic, "workflows.dlx" := Direct]
    ensures PIPELINE.queues == map["execution.run" := QueueArgs(None, "workflows.dlx", "execution.run"),
                                   "execution.retry" := QueueArgs(Some(10000), "workflows", "execution.run")]
    ensures PIPELINE.bindings == {Binding("execution.run", "execution.run", "workflows"),
                                  Binding("execution.retry", "execution.run", "workflows.dlx")}
    ensures MAX_RETRIES == 3
  {
    assert PIPELINE.bindings == {Binding(RUN, KEY, EXCHANGE), Binding(RETRY, KEY, DLX)};
  }

  // The services can declare in any order and again on every restart: nothing is refused or changed.
  lemma RedeclaringIsHarmless(t: Topology)
    requires Compatible(t)
    ensures Compatible(WithPipeline(t)) && WithPipeline(WithPipeline(t)) == WithPipeline(t)
  {
    var u := WithPipeline(t);
    assert u.exchanges[EXCHANGE := Topic][DLX := Direct] == u.exchanges;
    assert u.queues[RUN := RUN_ARGS][RETRY := RETRY_ARGS] == u.queues;
  }

  // A published or expired message goes to the run queue alone, a rejected one to the retry queue alone.
  lemma PipelineRoutes()
    ensures Route(PIPELINE, EXCHANGE, KEY) == {RUN}
    ensures DeadLetterTargets(PIPELINE, RUN) == {RETRY}
    ensures DeadLetterTargets(PIPELINE, RETRY) == {RUN}
  {
    var b1, b2 := Binding(RUN, KEY, EXCHANGE), Binding(RETRY, KEY, DLX);
    assert PIPELINE.bindings == {b1, b2};
    assert EXCHANGE != DLX by { assert |EXCHANGE| != |DLX|; }
    assert RUN != RETRY by { assert |RUN| != |RETRY|; }
    assert b1 in PIPELINE.bindings && b2 in PIPELINE.bindings;
  }

  // ----- x-death -----

  datatype Death = Death(queue: string, reason: string, count: nat)

  function Without(ds: seq<Death>, queue: string, reason: string): seq<Death> {
    if ds == [] then []
    else (if ds[0].queue == queue && ds[0].reason == reason then [] else [ds[0]]) + Without(ds[1..], queue, reason)
  }

  function CountOf(ds: seq<Death>, queue: string, reason: string): nat {
    if ds == [] then 0
    else if ds[0].queue == queue && ds[0].reason == reason then ds[0].count
    else CountOf(ds[1..], queue, reason)
  }

  // One entry per queue and reason, the newest in front.
  function Record(ds: seq<Death>, queue: string, reason: string): seq<Death> {
    [Death(queue, reason, CountOf(ds, queue, reason) + 1)] + Without(ds, queue, reason)
  }

  // The list on a message that was rejected n times and came back n times.
  function BackDeaths(n: nat): seq<Death> {
    if n == 0 then [] else [Death(RETRY, "expired", n), Death(RUN, "rejected", n)]
  }

  // The list on a message that waits after its n-th rejection.
  function WaitDeaths(n: nat): seq<Death>
    requires n > 0
  {
    [Death(RUN, "rejected", n)] + if n == 1 then [] else [Death(RETRY, "expired", n - 1)]
  }

  // What the worker reads: only the count of the entry in front.
  function DeathCount(ds: seq<Death>): nat {
    if ds == [] then 0 else ds[0].count
  }

  lemma Distinct()
    ensures RUN != RETRY && "expired" != "rejected"
  {
    assert |RUN| != |RETRY| && |"expired"| != |"rejected"|;
  }

  lemma Unfold(d: Death, rest: seq<Death>, queue: string, reason: string)
    ensures Without([d] + rest, queue, reason)
         == (if d.queue == queue && d.reason == reason then [] else [d]) + Without(rest, queue, reason)
    ensures CountOf([d] + rest, queue, reason)
         == if d.queue == queue && d.reason == reason then d.count else CountOf(rest, queue, reason)
  {
    assert ([d] + rest)[1..] == rest && ([d] + rest)[0] == d;
  }

  lemma RecordTwo(a: Death, b: Death)
    requires a.queue != b.queue
    ensures Record([a, b], b.queue, b.reason) == [Death(b.queue, b.reason, b.count + 1), a]
    ensures Record([a], b.queue, b.reason) == [Death(b.queue, b.reason, 1), a]
    ensures Record([], b.queue, b.reason) == [Death(b.queue, b.reason, 1)]
  {
    Unfold(b, [], b.queue, b.reason);
    Unfold(a, [b], b.queue, b.reason);
    Unfold(a, [], b.queue, b.reason);
    assert [a] + [b] == [a, b] && [a] + [] == [a] && [b] + [] == [b];
  }

  // One trip around the cycle: rejection and expiry each move their own entry to the front, so the
  // entry the worker reads on redelivery carries the number of rejections.
  lemma OneTrip(n: nat)
    ensures Record(BackDeaths(n), RUN, "rejected") == WaitDeaths(n + 1)
    ensures Record(WaitDeaths(n + 1), RETRY, "expired") == BackDeaths(n + 1)
    ensures DeathCount(BackDeaths(n)) == n
  {
    Distinct();
    RecordTwo(Death(RETRY, "expired", n), Death(RUN, "rejected", n));
    RecordTwo(Death(RUN, "rejected", n + 1), Death(RETRY, "expired", n));
  }
}
