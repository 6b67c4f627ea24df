/** The cache-aside workflow store: rows in the database, item texts with a time to live in Redis. */
module WorkflowStore {
  import opened Json
  import opened Events

  datatype Row = Row(userId: string, name: string, triggerType: string, triggerConfig: string, steps: string,
                     active: bool, deleted: bool)
  datatype Item = Item(id: nat, name: string, triggerType: string, triggerConfig: string, steps: string, active: bool)
  datatype User = User(id: string, admin: bool)
  datatype Fields = Fields(name: string, triggerType: string, triggerConfig: string, steps: string)

  datatype Error = NotFound | Forbidden | Broken(message: string)
  datatype Response = Created(id: nat) | Got(item: Item) | Ok | Failed(error: Error)

  function ToItem(id: nat, r: Row): Item {
    Item(id, r.name, r.triggerType, r.triggerConfig, r.steps, r.active)
  }

  // ----- the cached text -----

  function ItemMembers(x: Item): seq<Member> {
    [Member("id", Num(x.id)), Member("name", Str(x.name)), Member("triggerType", Str(x.triggerType)),
     Member("triggerConfig", Str(x.triggerConfig)), Member("steps", Str(x.steps)), Member("isActive", Bool(x.active))]
  }

  function ItemText(x: Item): string {
    PrintObject(ItemMembers(x))
  }

  function ReadItem(text: string): Option<Item> {
    match ReadObject(text)
    case None => None
    case Some(ms) => Some(Item(Number(Find(ms, "id")), Text(Find(ms, "name")), Text(Find(ms, "triggerType")),
                               Text(Find(ms, "triggerConfig")), Text(Find(ms, "steps")),
                               Find(ms, "isActive") == Some(Bool(true))))
  }

  lemma ItemFields(x: Item)
    ensures var ms := ItemMembers(x);
            && Find(ms, "id") == Some(Num(x.id)) && Find(ms, "name") == Some(Str(x.name))
            && Find(ms, "triggerType") == Some(Str(x.triggerType))
            && Find(ms, "triggerConfig") == Some(Str(x.triggerConfig))
            && Find(ms, "steps") == Some(Str(x.steps)) && Find(ms, "isActive") == Some(Bool(x.active))
  {
    var ms := ItemMembers(x);
    FindAt(ms, 0);
    FindAt(ms, 1);
    FindAt(ms, 2);
    FindAt(ms, 3);
    FindAt(ms, 4);
    FindAt(ms, 5);
  }

  // An item survives the cache unchanged, whatever its texts.
  lemma ItemRoundTrip(x: Item)
    ensures ReadItem(ItemText(x)) == Some(x)
  {
    ObjectRoundTrip(ItemMembers(x));
    ItemFields(x);
  }

  const PREFIX := "workflow:"

  function Key(id: nat): string {
    PREFIX + Itoa(id)
  }

  lemma KeyInjective(i: nat, j: nat)
    requires Key(i) == Key(j)
    ensures i == j
  {
    assert Key(i)[|PREFIX|..] == Itoa(i) && Key(j)[|PREFIX|..] == Itoa(j);
    ReadItoa(i, "");
    ReadItoa(j, "");
    assert Itoa(i) + "" == Itoa(i) && Itoa(j) + "" == Itoa(j);
  }

  // ----- what the operations mean without a cache -----

  datatype Db = Db(rows: map<nat, Row>, nextId: nat)

  predicate Live(db: Db, id: nat) {
    id in db.rows && !db.rows[id].deleted
  }

  // Admins pass; a row without an owner is open to everyone; others must be the owner.
  predicate Allowed(u: User, owner: string) {
    u.admin || owner == "" || owner == u.id
  }

  function Refusal(db: Db, u: User, id: nat): Option<Error> {
    if !Live(db, id) then Some(NotFound)
    else if !Allowed(u, db.rows[id].userId) then Some(Forbidden)
    else None
  }

  function Keep(given: string, stored: string): string {
    if given == "" then stored else given
  }

  // An update always sets the active flag and replaces the fields that are given.
  function Updated(r: Row, f: Fields, active: bool): Row {
    r.(name := Keep(f.name, r.name), triggerType := Keep(f.triggerType, r.triggerType),
       triggerConfig := Keep(f.triggerConfig, r.triggerConfig), steps := Keep(f.steps, r.steps), active := active)
  }

  // A text field of a row after an update: the given text, or the old one if none was given.
  predicate Replaced(given: string, before: string, after: string) {
    (given != "" ==> after == given) && (given == "" ==> after == before)
  }

  // Each field has gone to its own column; the owner and the deleted flag have stayed.
  predicate Rewritten(before: Row, after: Row, f: Fields, active: bool) {
    && Replaced(f.name, before.name, after.name) && Replaced(f.triggerType, before.triggerType, after.triggerType)
    && Replaced(f.triggerConfig, before.triggerConfig, after.triggerConfig)
    && Replaced(f.steps, before.steps, after.steps)
    && after.active == active && after.userId == before.userId && after.deleted == before.deleted
  }

  // redisUp, stored and dropped say whether the Redis get, set and delete of the operation succeed; the errors
  // fail the operation's database read and its database write.
  datatype Op =
    | Create(u: User, f: Fields, writeError: Option<string>)
    | Get(u: User, id: nat, redisUp: bool, stored: bool, readError: Option<string>)
    | Update(u: User, id: nat, f: Fields, active: bool, readError: Option<string>, writeError: Option<string>,
             dropped: bool)
    | Delete(u: User, id: nat, readError: Option<string>, writeError: Option<string>, dropped: bool)
    | Wait(d: nat)

  function PlainGet(db: Db, u: User, id: nat, readError: Option<string>): Response {
    if readError.Some? then Failed(Broken(readError.value))
    else if Refusal(db, u, id).Some? then Failed(Refusal(db, u, id).value)
    else Got(ToItem(id, db.rows[id]))
  }

  // The answer of a change before anything is written: the read and its checks, then the write's own error.
  function Obstacle(db: Db, u: User, id: nat, readError: Option<string>, writeError: Option<string>): Option<Error> {
    if readError.Some? then Some(Broken(readError.value))
    else if Refusal(db, u, id).Some? then Refusal(db, u, id)
    else if writeError.Some? then Some(Broken(writeError.value))
    else None
  }

  function Plain(db: Db, op: Op): (Db, Response) {
    match op
    case Create(u, f, writeError) =>
      if writeError.Some? then (db, Failed(Broken(writeError.value)))
      else
        var row := Row(u.id, f.name, f.triggerType, f.triggerConfig, f.steps, true, false);
        (Db(db.rows[db.nextId := row], db.nextId + 1), Created(db.nextId))
    case Get(u, id, _, _, readError) => (db, PlainGet(db, u, id, readError))
    case Update(u, id, f, active, readError, writeError, _) =>
      var e := Obstacle(db, u, id, readError, writeError);
      if e.Some? then (db, Failed(e.value))
      else (db.(rows := db.rows[id := Updated(db.rows[id], f, active)]), Ok)
    case Delete(u, id, readError, writeError, _) =>
      var e := Obstacle(db, u, id, readError, writeError);
      if e.Some? then (db, Failed(e.value))
      else (db.(rows := db.rows[id := db.rows[id].(deleted := true)]), Ok)
    case Wait(_) => (db, Ok)
  }

  // ----- what the plain operations promise, column by column -----

  // An item is its row, column by column.
  predicate Shows(x: Item, id: nat, r: Row) {
    && x.id == id && x.name == r.name && x.triggerType == r.triggerType && x.triggerConfig == r.triggerConfig
    && x.steps == r.steps && x.active == r.active
  }

  // A get that reads the database serves exactly the live rows that are open, one's own, or asked for by an admin.
  lemma GetShowsRow(db: Db, u: User, id: nat)
    ensures var r := PlainGet(db, u, id, None);
            && (r.Got? <==> && id in db.rows && !db.rows[id].deleted
                            && (u.admin || db.rows[id].userId == "" || db.rows[id].userId == u.id))
            && (r.Got? ==> Shows(r.item, id, db.rows[id]))
            && (id !in db.rows || db.rows[id].deleted ==> r == Failed(NotFound))
            && (!r.Got? && r != Failed(NotFound) ==> r == Failed(Forbidden))
    ensures forall e :: PlainGet(db, u, id, Some(e)) == Failed(Broken(e))
  {
  }

  // A change is answered as a get would refuse it, or by a database error, or it succeeds.
  predicate Answers(db: Db, op: Op, r: Response)
    requires op.Update? || op.Delete?
  {
    var g := PlainGet(db, op.u, op.id, op.readError);
    && (g.Failed? ==> r == g)
    && (g.Got? && op.writeError.Some? ==> r == Failed(Broken(op.writeError.value)))
    && (g.Got? && op.writeError.None? ==> r == Ok)
  }

  // An update that succeeds rewrites that row alone, and any other changes nothing.
  lemma UpdateRewrites(db: Db, op: Op)
    requires op.Update?
    ensures var (after, r) := Plain(db, op);
            && Answers(db, op, r)
            && (r.Ok? ==> && after.rows.Keys == db.rows.Keys && after.nextId == db.nextId && op.id in db.rows
                          && Rewritten(db.rows[op.id], after.rows[op.id], op.f, op.active)
                          && forall j :: j in db.rows && j != op.id ==> after.rows[j] == db.rows[j])
            && (!r.Ok? ==> after == db)
  {
  }

  // A delete that succeeds marks that row alone, and any other changes nothing.
  lemma DeleteMarks(db: Db, op: Op)
    requires op.Delete?
    ensures var (after, r) := Plain(db, op);
            && Answers(db, op, r)
            && (r.Ok? ==> && after.rows.Keys == db.rows.Keys && after.nextId == db.nextId && op.id in db.rows
                          && after.rows[op.id].deleted && after.rows[op.id].(deleted := false) == db.rows[op.id]
                          && forall j :: j in db.rows && j != op.id ==> after.rows[j] == db.rows[j])
            && (!r.Ok? ==> after == db)
  {
  }

  // What anyone is served after a successful update: the given fields, and the old ones where none was given.
  lemma UpdateThenGet(db: Db, op: Op, v: User)
    requires op.Update? && Plain(db, op).1.Ok? && PlainGet(Plain(db, op).0, v, op.id, None).Got?
    ensures var x, before := PlainGet(Plain(db, op).0, v, op.id, None).item, db.rows[op.id];
            && x.id == op.id && Replaced(op.f.name, before.name, x.name)
            && Replaced(op.f.triggerType, before.triggerType, x.triggerType)
            && Replaced(op.f.triggerConfig, before.triggerConfig, x.triggerConfig)
            && Replaced(op.f.steps, before.steps, x.steps) && x.active == op.active
  {
    UpdateRewrites(db, op);
    GetShowsRow(Plain(db, op).0, v, op.id);
  }

  // What the creator is served after a create: the given fields, active.
  lemma CreateThenGet(db: Db, op: Op)
    requires op.Create?
    ensures var (after, r) := Plain(db, op);
            && (op.writeError.Some? ==> after == db && r == Failed(Broken(op.writeError.value)))
            && (op.writeError.None? ==>
                  && r == Created(db.nextId) && after.nextId == db.nextId + 1
                  && var g := PlainGet(after, op.u, db.nextId, None);
                     g == Got(Item(db.nextId, op.f.name, op.f.triggerType, op.f.triggerConfig, op.f.steps, true)))
  {
  }

  // After a delete nobody is served the row, and nothing else has changed.
  lemma DeleteThenGet(db: Db, op: Op, v: User, w: User, j: nat)
    requires op.Delete? && Plain(db, op).1.Ok?
    ensures var after := Plain(db, op).0;
            && PlainGet(after, v, op.id, None) == Failed(NotFound)
            && (j != op.id ==> PlainGet(after, w, j, None) == PlainGet(db, w, j, None))
  {
  }

  // Another user's workflow is neither served nor changed, whatever the cache and the database do.
  lemma OthersAreRefused(db: Db, op: Op)
    requires (op.Get? || op.Update? || op.Delete?) && !op.u.admin && op.id in db.rows
    requires db.rows[op.id].userId != "" && db.rows[op.id].userId != op.u.id
    ensures Plain(db, op).0 == db && Plain(db, op).1.Failed? && HitWithoutDb(db, op.u, op.id).Failed?
  {
  }

  // ----- the store with its cache -----

  const TTL := 300

  datatype Entry = Entry(text: string, expires: nat)

  type Cache = map<string, Entry>

  function Expire(cache: Cache, now: nat): Cache {
    map k | k in cache && now < cache[k].expires :: cache[k]
  }

  ghost predicate Fresh(db: Db, cache: Cache, id: nat) {
    Key(id) in cache ==> Live(db, id) && cache[Key(id)].text == ItemText(ToItem(id, db.rows[id]))
  }

  // Every cached entry under the key of id is the text of the live row id.
  ghost predicate Coherent(db: Db, cache: Cache) {
    forall id :: Fresh(db, cache, id)
  }

  ghost predicate FreshIds(db: Db) {
    forall id :: id in db.rows ==> id < db.nextId
  }

  class Store {
    var rows: map<nat, Row>
    var nextId: nat
    var cache: Cache
    var now: nat

    constructor ()
      ensures View() == Db(map[], 1) && cache == map[] && Coherent(View(), cache) && FreshIds(View())
    {
      rows, nextId, cache, now := map[], 1, map[], 0;
    }

    function View(): Db
      reads this
    {
      Db(rows, nextId)
    }

    method CreateWorkflow(u: User, f: Fields, writeError: Option<string>) returns (r: Response)
      requires FreshIds(View())
      modifies this`rows, this`nextId
      ensures FreshIds(View()) && (View(), r) == Plain(old(View()), Create(u, f, writeError))
      ensures old(Coherent(View(), cache)) ==> Coherent(View(), cache)
    {
      if writeError.Some? { return Failed(Broken(writeError.value)); }
      var id := nextId;
      ghost var before := View();
      rows, nextId := rows[id := Row(u.id, f.name, f.triggerType, f.triggerConfig, f.steps, true, false)], id + 1;
      if Coherent(before, cache) {
        assert Fresh(before, cache, id);
        OthersFresh(before, View(), cache, cache, id);
      }
      return Created(id);
    }

    // The hit path's own ownership check: any failure to load the owner reads as not found.
    method CheckOwnership(u: User, id: nat, readError: Option<string>) returns (e: Option<Error>)
      ensures e == if u.admin then None else if readError.Some? then Some(NotFound) else Refusal(View(), u, id)
    {
      if u.admin { return None; }
      if readError.Some? || id !in rows || rows[id].deleted { return Some(NotFound); }
      if rows[id].userId != "" && rows[id].userId != u.id { return Some(Forbidden); }
      return None;
    }

    // Whatever the cache holds, nobody but an admin is served a deleted row or another user's, and nothing at all while
    // the database is down; a readable entry is answered after checking the owner of the row it names, anything
    // else by the database, and only an answer from the database is cached, for five minutes. A coherent cache
    // stays coherent, and with it the answer is the one the database alone would give, or, on a hit while the
    // database is down, the cached item for an admin and not-found for anyone else.
    method GetWorkflow(u: User, id: nat, redisUp: bool, stored: bool, readError: Option<string>) returns (r: Response)
      modifies this`cache
      ensures var hit := Cached(old(cache), id, redisUp);
              && r == (if hit.Some? then FromCache(View(), u, hit.value, readError)
                       else PlainGet(View(), u, id, readError))
              && cache == if hit.None? && r.Got? && stored then
                            old(cache)[Key(id) := Entry(ItemText(r.item), now + 300)]
                          else old(cache)
      ensures old(Coherent(View(), cache)) ==>
                && Coherent(View(), cache)
                && r == if redisUp && Key(id) in old(cache) && readError.Some? then HitWithoutDb(View(), u, id)
                        else PlainGet(View(), u, id, readError)
      ensures r.Got? && !u.admin ==>
                && readError.None? && r.item.id in rows && !rows[r.item.id].deleted
                && (rows[r.item.id].userId == "" || rows[r.item.id].userId == u.id)
    {
      var key := Key(id);
      CoherentHit(View(), cache, u, id, redisUp, readError);
      if redisUp && key in cache {
        var item := ReadItem(cache[key].text);
        if item.Some? {
          var e := CheckOwnership(u, item.value.id, readError);
          if e.Some? { return Failed(e.value); }
          return Got(item.value);
        }
      }
      if readError.Some? { return Failed(Broken(readError.value)); }
      if id !in rows || rows[id].deleted { return Failed(NotFound); }
      if !u.admin && rows[id].userId != "" && rows[id].userId != u.id { return Failed(Forbidden); }
      var item := ToItem(id, rows[id]);
      if stored {
        ghost var before := cache;
        cache := cache[key := Entry(ItemText(item), now + TTL)];
        if Coherent(View(), before) { OthersFresh(View(), View(), before, cache, id); }
      }
      return Got(item);
    }

    // A failed update changes nothing. An update whose Redis delete fails leaves a coherent cache coherent exactly
    // when nothing was cached or the item did not change.
    method UpdateWorkflow(u: User, id: nat, f: Fields, active: bool, readError: Option<string>,
                          writeError: Option<string>,
                          dropped: bool) returns (r: Response)
      modifies this`rows, this`cache
      ensures (View(), r) == Plain(old(View()), Update(u, id, f, active, readError, writeError, dropped))
      ensures r.Ok? ==> id in old(rows) && id in rows && Rewritten(old(rows)[id], rows[id], f, active)
      ensures cache == if r.Ok? && dropped then old(cache) - {Key(id)} else old(cache)
      ensures old(Coherent(View(), cache)) ==>
                (Coherent(View(), cache) <==>
                   r.Failed? || dropped || Key(id) !in cache || ToItem(id, rows[id]) == ToItem(id, old(rows)[id]))
    {
      if readError.Some? { return Failed(Broken(readError.value)); }
      if id !in rows || rows[id].deleted { return Failed(NotFound); }
      if !u.admin && rows[id].userId != "" && rows[id].userId != u.id { return Failed(Forbidden); }
      if writeError.Some? { return Failed(Broken(writeError.value)); }
      ghost var before, entries := View(), cache;
      rows := rows[id := Updated(rows[id], f, active)];
      if dropped { cache := cache - {Key(id)}; }
      if Coherent(before, entries) {
        assert Fresh(before, entries, id);
        OthersFresh(before, View(), entries, cache, id);
        StaleExactly(before, View(), cache, id);
      }
      return Ok;
    }

    // A delete whose Redis delete fails leaves a coherent cache coherent exactly when nothing was cached.
    method DeleteWorkflow(u: User, id: nat, readError: Option<string>, writeError: Option<string>, dropped: bool)
      returns (r: Response)
      modifies this`rows, this`cache
      ensures (View(), r) == Plain(old(View()), Delete(u, id, readError, writeError, dropped))
      ensures cache == if r.Ok? && dropped then old(cache) - {Key(id)} else old(cache)
      ensures old(Coherent(View(), cache)) ==> (Coherent(View(), cache) <==> r.Failed? || dropped || Key(id) !in cache)
    {
      if readError.Some? { return Failed(Broken(readError.value)); }
      if id !in rows || rows[id].deleted { return Failed(NotFound); }
      if !u.admin && rows[id].userId != "" && rows[id].userId != u.id { return Failed(Forbidden); }
      if writeError.Some? { return Failed(Broken(writeError.value)); }
      ghost var before, entries := View(), cache;
      rows := rows[id := rows[id].(deleted := true)];
      if dropped { cache := cache - {Key(id)}; }
      if Coherent(before, entries) {
        OthersFresh(before, View(), entries, cache, id);
        assert Fresh(View(), cache, id) <==> Key(id) !in cache;
      }
      return Ok;
    }

    // Time passes and Redis drops what has expired.
    method Pass(d: nat)
      modifies this`cache, this`now
      ensures now == old(now) + d && cache == Expire(old(cache), now) && View() == old(View())
      ensures old(Coherent(View(), cache)) ==> Coherent(View(), cache)
    {
      ghost var before := cache;
      now := now + d;
      cache := Expire(cache, now);
      ExpireFresh(View(), before, now);
    }
  }

  // The item a Redis get finds: nothing, or an entry that cannot be read, is a miss.
  function Cached(cache: Cache, id: nat, redisUp: bool): Option<Item> {
    if redisUp && Key(id) in cache then ReadItem(cache[Key(id)].text) else None
  }

  function FromCache(db: Db, u: User, item: Item, readError: Option<string>): Response {
    if u.admin then Got(item)
    else if readError.Some? then Failed(NotFound)
    else if Refusal(db, u, item.id).Some? then Failed(Refusal(db, u, item.id).value)
    else Got(item)
  }

  lemma CoherentHit(db: Db, cache: Cache, u: User, id: nat, redisUp: bool, readError: Option<string>)
    ensures Coherent(db, cache) && redisUp && Key(id) in cache ==>
              && Live(db, id) && Cached(cache, id, redisUp) == Some(ToItem(id, db.rows[id]))
              && FromCache(db, u, ToItem(id, db.rows[id]), readError)
                 == if readError.Some? then HitWithoutDb(db, u, id) else PlainGet(db, u, id, readError)
  {
    if Coherent(db, cache) && redisUp && Key(id) in cache {
      assert Fresh(db, cache, id);
      ItemRoundTrip(ToItem(id, db.rows[id]));
    }
  }

  function HitWithoutDb(db: Db, u: User, id: nat): Response {
    if u.admin && Live(db, id) then Got(ToItem(id, db.rows[id])) else Failed(NotFound)
  }

  // Writing row id and the entry of its key leaves every other id as fresh as it was.
  lemma OthersFresh(before: Db, after: Db, was: Cache, cache: Cache, id: nat)
    requires Coherent(before, was)
    requires forall j :: j != id ==> (j in before.rows <==> j in after.rows)
    requires forall j :: j != id && j in after.rows ==> after.rows[j] == before.rows[j]
    requires forall k :: k != Key(id) && k in cache ==> k in was && cache[k] == was[k]
    ensures forall j :: j != id ==> Fresh(after, cache, j)
    ensures Coherent(after, cache) <==> Fresh(after, cache, id)
  {
    forall j | j != id ensures Fresh(after, cache, j) {
      if Key(j) == Key(id) { KeyInjective(j, id); }
      assert Fresh(before, was, j);
    }
  }

  // What a get caches is there for five minutes and not longer, whatever else is cached.
  lemma CachedForFiveMinutes(cache: Cache, key: string, text: string, now: nat, later: nat)
    ensures key in Expire(cache[key := Entry(text, now + 300)], later) <==> later < now + 300
    ensures forall k :: k != key ==>
              (k in Expire(cache[key := Entry(text, now + 300)], later) <==> k in Expire(cache, later))
  {
  }

  lemma ExpireFresh(db: Db, cache: Cache, now: nat)
    ensures Coherent(db, cache) ==> Coherent(db, Expire(cache, now))
  {
    if Coherent(db, cache) {
      forall id ensures Fresh(db, Expire(cache, now), id) { assert Fresh(db, cache, id); }
    }
  }

  lemma StaleExactly(before: Db, after: Db, cache: Cache, id: nat)
    requires Live(before, id) && Live(after, id)
    requires Key(id) in cache ==> cache[Key(id)].text == ItemText(ToItem(id, before.rows[id]))
    ensures Fresh(after, cache, id) <==> Key(id) !in cache || ToItem(id, after.rows[id]) == ToItem(id, before.rows[id])
  {
    ItemRoundTrip(ToItem(id, before.rows[id]));
    ItemRoundTrip(ToItem(id, after.rows[id]));
  }

  // ----- whole runs -----

  predicate RedisDeletes(op: Op) {
    op.Update? || op.Delete? ==> op.dropped
  }

  // The database after a sequence of operations without any cache.
  function DbAfter(db: Db, ops: seq<Op>): Db {
    if ops == [] then db else Plain(DbAfter(db, ops[..|ops| - 1]), ops[|ops| - 1]).0
  }

  // The answer the database alone would give; on a failed database read also the answer of a hit.
  predicate Transparent(db: Db, op: Op, r: Response) {
    || r == Plain(db, op).1
    || (op.Get? && op.readError.Some? && op.redisUp && r == HitWithoutDb(db, op.u, op.id))
  }

  method Perform(s: Store, op: Op) returns (r: Response)
    requires Coherent(s.View(), s.cache) && FreshIds(s.View()) && RedisDeletes(op)
    modifies s
    ensures Coherent(s.View(), s.cache) && FreshIds(s.View())
    ensures s.View() == Plain(old(s.View()), op).0 && Transparent(old(s.View()), op, r)
  {
    match op {
      case Create(u, f, writeError) => r := s.CreateWorkflow(u, f, writeError);
      case Get(u, id, redisUp, stored, readError) => r := s.GetWorkflow(u, id, redisUp, stored, readError);
      case Update(u, id, f, active, readError, writeError, dropped) =>
        r := s.UpdateWorkflow(u, id, f, active, readError, writeError, dropped);
      case Delete(u, id, readError, writeError, dropped) =>
        r := s.DeleteWorkflow(u, id, readError, writeError, dropped);
      case Wait(d) =>
        s.Pass(d);
        r := Ok;
    }
  }

  // Sequential transparency: whatever users create, get, update and delete, whatever expires in between, however
  // often Redis misses and whichever database accesses fail, the store answers every call as the database alone
  // would, except that a hit may answer a get whose database read fails.
  method PerformAll(s: Store, ops: seq<Op>) returns (answers: seq<Response>)
    requires Coherent(s.View(), s.cache) && FreshIds(s.View())
    requires forall k :: 0 <= k < |ops| ==> RedisDeletes(ops[k])
    modifies s
    ensures |answers| == |ops| && s.View() == DbAfter(old(s.View()), ops)
    ensures forall k :: 0 <= k < |ops| ==> Transparent(DbAfter(old(s.View()), ops[..k]), ops[k], answers[k])
    ensures Coherent(s.View(), s.cache)
  {
    answers := [];
    var i := 0;
    while i < |ops|
      invariant 0 <= i <= |ops| && |answers| == i
      invariant Coherent(s.View(), s.cache) && FreshIds(s.View()) && s.View() == DbAfter(old(s.View()), ops[..i])
      invariant forall k :: 0 <= k < i ==> Transparent(DbAfter(old(s.View()), ops[..k]), ops[k], answers[k])
    {
      assert ops[..i + 1][..i] == ops[..i];
      var r := Perform(s, ops[i]);
      answers := answers + [r];
      i := i + 1;
    }
    assert ops[..|ops|] == ops;
  }
}
