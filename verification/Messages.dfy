/** The execution message that both producers publish and the worker reads: its JSON body and its headers. */
module Messages {
  import opened Json
  import opened Events
  import opened Topology

  datatype ExecutionMessage = ExecutionMessage(executionId: nat, workflowId: nat, triggerPayload: string)

  function ToFields(m: ExecutionMessage): seq<Member> {
    [Member("executionId", Num(m.executionId)), Member("workflowId", Num(m.workflowId)),
     Member("triggerPayload", Str(m.triggerPayload))]
  }

  function Marshal(m: ExecutionMessage): string {
    PrintObject(ToFields(m))
  }

  // A missing field reads as zero; a field of the wrong kind is an error.
  function NatField(ms: seq<Member>, key: string): Option<nat> {
    match Find(ms, key)
    case None => Some(0)
    case Some(Num(n)) => Some(n)
    case Some(_) => None
  }

  function TextField(ms: seq<Member>, key: string): Option<string> {
    match Find(ms, key)
    case None => Some("")
    case Some(Str(s)) => Some(s)
    case Some(_) => None
  }

  function FromFields(ms: seq<Member>): Option<ExecutionMessage> {
    var e, w, p := NatField(ms, "executionId"), NatField(ms, "workflowId"), TextField(ms, "triggerPayload");
    if e.None? || w.None? || p.None? then None else Some(ExecutionMessage(e.value, w.value, p.value))
  }

  function Unmarshal(body: string): Option<ExecutionMessage> {
    match ReadObject(body)
    case None => None
    case Some(ms) => FromFields(ms)
  }

  lemma FieldsRead(m: ExecutionMessage)
    ensures Find(ToFields(m), "executionId") == Some(Num(m.executionId))
    ensures Find(ToFields(m), "workflowId") == Some(Num(m.workflowId))
    ensures Find(ToFields(m), "triggerPayload") == Some(Str(m.triggerPayload))
  {
    FindAt(ToFields(m), 0);
    FindAt(ToFields(m), 1);
    FindAt(ToFields(m), 2);
  }

  lemma FromToFields(m: ExecutionMessage)
    ensures FromFields(ToFields(m)) == Some(m)
  {
    FieldsRead(m);
  }

  // The worker reads back exactly the message published, whatever its trigger payload.
  lemma MessageRoundTrip(m: ExecutionMessage)
    ensures Unmarshal(Marshal(m)) == Some(m)
  {
    ObjectRoundTrip(ToFields(m));
    FromToFields(m);
  }

  // A body without the three keys reads as zeros, and one whose first key is an id of the wrong kind cannot be read.
  lemma OddBodies(ms: seq<Member>, text: string)
    requires forall k :: 0 <= k < |ms| ==> ms[k].key !in ["executionId", "workflowId", "triggerPayload"]
    ensures ms != [] ==> Unmarshal(PrintObject(ms)) == Some(ExecutionMessage(0, 0, ""))
    ensures Unmarshal(PrintObject([Member("executionId", Str(text))] + ms)) == None
  {
    FindMissing(ms, "executionId");
    FindMissing(ms, "workflowId");
    FindMissing(ms, "triggerPayload");
    if ms != [] { ObjectRoundTrip(ms); }
    ObjectRoundTrip([Member("executionId", Str(text))] + ms);
  }

  // ----- headers -----

  datatype Amqp = Int64(n: int) | Text(s: string) | Table(fields: map<string, Amqp>) | List(items: seq<Amqp>)

  type Headers = Option<map<string, Amqp>>

  const XDEATH := "x-death"
  const COUNT := "count"

  // The worker's own reading: the count of the first entry, 0 for anything that is not of that shape.
  function CountIn(headers: Headers): int {
    if headers.None? || XDEATH !in headers.value then 0
    else match headers.value[XDEATH]
      case List(items) =>
        if items == [] || !items[0].Table? || COUNT !in items[0].fields || !items[0].fields[COUNT].Int64? then 0
        else items[0].fields[COUNT].n
      case _ => 0
  }

  // How the broker writes the x-death list.
  function DeathTable(d: Death): Amqp {
    Table(map["queue" := Text(d.queue), "reason" := Text(d.reason), COUNT := Int64(d.count)])
  }

  function DeathList(ds: seq<Death>): (r: seq<Amqp>)
    ensures |r| == |ds| && forall i :: 0 <= i < |ds| ==> r[i] == DeathTable(ds[i])
  {
    if ds == [] then [] else [DeathTable(ds[0])] + DeathList(ds[1..])
  }

  // The headers of a delivery with dead-letter history ds; other headers are free.
  predicate Carry(headers: Headers, ds: seq<Death>) {
    if ds == [] then headers.None? || XDEATH !in headers.value
    else headers.Some? && XDEATH in headers.value && headers.value[XDEATH] == List(DeathList(ds))
  }

  // Through the header the worker reads the front entry's count, whatever tracing headers stand beside it.
  lemma CountIsDeathCount(headers: Headers, ds: seq<Death>)
    requires Carry(headers, ds)
    ensures CountIn(headers) == DeathCount(ds)
  {
    if ds != [] {
      assert DeathList(ds)[0] == DeathTable(ds[0]);
    }
  }

  // Injecting a trace header in place changes neither the history nor the count.
  lemma TraceHeadersHarmless(headers: map<string, Amqp>, key: string, value: string, ds: seq<Death>)
    requires key != XDEATH && Carry(Some(headers), ds)
    ensures Carry(Some(headers[key := Text(value)]), ds) && CountIn(Some(headers[key := Text(value)])) == DeathCount(ds)
  {
    CountIsDeathCount(Some(headers[key := Text(value)]), ds);
  }

  // The worker's reading of an x-death header, entry by entry: the count of the first entry, and 0 without the header,
  // without entries, or if the first one carries no integer count.
  lemma HeaderReads(headers: map<string, Amqp>, fields: map<string, Amqp>, more: seq<Amqp>, n: int)
    ensures "count" in fields && fields["count"] == Int64(n) ==>
              CountIn(Some(headers["x-death" := List([Table(fields)] + more)])) == n
    ensures "count" !in fields || !fields["count"].Int64? ==>
              CountIn(Some(headers["x-death" := List([Table(fields)] + more)])) == 0
    ensures CountIn(None) == 0 && CountIn(Some(headers["x-death" := List([])])) == 0
    ensures "x-death" !in headers ==> CountIn(Some(headers)) == 0
  {
  }
}
