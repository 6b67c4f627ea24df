/** The workflows' channels in runs of the whole pipeline: what the calls publish there in the course of time, and
    what the client of an execution makes of it. */
module Channels {
  import opened Json
  import opened Sequences
  import opened Events
  import opened Engine
  import opened EngineFacts
  import opened StreamHandler
  import opened Delivery
  import opened System
  import opened SystemFacts
  import P = Protocol
  import PF = ProtocolFacts
  import Topology

  function PostedBy(feed: seq<Posted>, c: nat): seq<Event> {
    if feed == [] then [] else (if feed[0].call == c then [feed[0].event] else []) + PostedBy(feed[1..], c)
  }

  // The messages on the channel of workflow w, in order.
  function OnChannel(feed: seq<Posted>, w: nat): seq<Event> {
    if feed == [] then [] else (if feed[0].wf == w then [feed[0].event] else []) + OnChannel(feed[1..], w)
  }

  lemma {:induction false} PostedAppend(a: seq<Posted>, b: seq<Posted>, c: nat)
    ensures PostedBy(a + b, c) == PostedBy(a, c) + PostedBy(b, c)
  {
    if a == [] { assert a + b == b; }
    else {
      var first := if a[0].call == c then [a[0].event] else [];
      assert (a + b)[1..] == a[1..] + b;
      PostedAppend(a[1..], b, c);
      Assoc(first, PostedBy(a[1..], c), PostedBy(b, c));
    }
  }

  lemma PostedOne(p: Posted, c: nat)
    ensures PostedBy([p], c) == if p.call == c then [p.event] else []
  {
    assert [p][1..] == [];
  }

  lemma PostedSplit(before: seq<Posted>, after: seq<Posted>, c: nat)
    requires before <= after
    ensures PostedBy(after, c) == PostedBy(before, c) + PostedBy(after[|before|..], c)
  {
    assert after == before + after[|before|..];
    PostedAppend(before, after[|before|..], c);
  }

  lemma {:induction false} NothingPosted(feed: seq<Posted>, c: nat)
    requires forall k :: 0 <= k < |feed| ==> feed[k].call != c
    ensures PostedBy(feed, c) == []
  {
    if feed != [] { NothingPosted(feed[1..], c); }
  }

  lemma {:induction false} PostedHolds(feed: seq<Posted>, c: nat, ev: Event)
    ensures ev in PostedBy(feed, c) <==> exists k :: 0 <= k < |feed| && feed[k].call == c && feed[k].event == ev
  {
    if feed != [] {
      PostedHolds(feed[1..], c, ev);
      assert forall k :: 0 < k < |feed| ==> feed[k] == feed[1..][k - 1];
    }
  }

  lemma {:induction false} ChannelHolds(feed: seq<Posted>, w: nat, ev: Event)
    ensures ev in OnChannel(feed, w) <==> exists k :: 0 <= k < |feed| && feed[k].wf == w && feed[k].event == ev
  {
    if feed != [] {
      ChannelHolds(feed[1..], w, ev);
      assert forall k :: 0 < k < |feed| ==> feed[k] == feed[1..][k - 1];
    }
  }

  // ----- every call publishes the events of the part of its run that it has performed -----

  predicate PostOk(p: Posted, calls: seq<Attempt>, rows: map<nat, Row>) {
    p.call < |calls| && calls[p.call].exec in rows && p.wf == rows[calls[p.call].exec].wf
  }

  // Each message is on the channel of its execution's workflow.
  ghost predicate PostsOk(feed: seq<Posted>, calls: seq<Attempt>, rows: map<nat, Row>) {
    forall k :: 0 <= k < |feed| ==> PostOk(feed[k], calls, rows)
  }

  ghost predicate CallPosts(feed: seq<Posted>, a: Attempt, c: nat) {
    && WellFormed(a.parsed, a.obs) && a.pc <= |ScriptOf(a)|
    && PostedBy(feed, c) == EventsOf(ScriptOf(a)[..a.pc])
  }

  ghost predicate AllPost(feed: seq<Posted>, calls: seq<Attempt>) {
    forall c :: 0 <= c < |calls| ==> CallPosts(feed, calls[c], c)
  }

  ghost predicate FeedOk(s: State) {
    PostsOk(s.feed, s.calls, s.rows) && AllPost(s.feed, s.calls)
  }

  lemma OwnEvents(a: Attempt)
    requires Open(a) && a.pc < |ScriptOf(a)|
    ensures EventsOf(ScriptOf(a)[..a.pc + 1]) == EventsOf(ScriptOf(a)[..a.pc]) + EventOf(ScriptOf(a)[a.pc])
  {
    var x := ScriptOf(a)[a.pc];
    ScriptPrefix(a);
    EventsAppend(ScriptOf(a)[..a.pc], [x]);
    assert [x][1..] == [];
  }

  lemma PerformedPosts(feed: seq<Posted>, a: Attempt, c: nat, wf: nat)
    requires CallPosts(feed, a, c) && Open(a) && a.pc < |ScriptOf(a)|
    ensures var x := ScriptOf(a)[a.pc];
            CallPosts(if x.Publish? then feed + [Posted(c, wf, x.event)] else feed, Advanced(a), c)
  {
    var x := ScriptOf(a)[a.pc];
    OwnEvents(a);
    assert ScriptOf(Advanced(a)) == ScriptOf(a);
    if x.Publish? {
      PostedAppend(feed, [Posted(c, wf, x.event)], c);
      PostedOne(Posted(c, wf, x.event), c);
    }
  }

  lemma OthersPosts(feed: seq<Posted>, p: Posted, a: Attempt, c: nat)
    requires CallPosts(feed, a, c) && p.call != c
    ensures CallPosts(feed + [p], a, c)
  {
    PostedAppend(feed, [p], c);
    PostedOne(p, c);
  }

  lemma AdvancedPosts(feed: seq<Posted>, calls: seq<Attempt>, c: nat, wf: nat)
    requires c < |calls| && Open(calls[c]) && calls[c].pc < |ScriptOf(calls[c])| && AllPost(feed, calls)
    ensures var x := ScriptOf(calls[c])[calls[c].pc];
            AllPost(if x.Publish? then feed + [Posted(c, wf, x.event)] else feed, calls[c := Advanced(calls[c])])
  {
    var x := ScriptOf(calls[c])[calls[c].pc];
    PerformedPosts(feed, calls[c], c, wf);
    if x.Publish? {
      forall d | 0 <= d < |calls| && d != c ensures CallPosts(feed + [Posted(c, wf, x.event)], calls[d], d) {
        OthersPosts(feed, Posted(c, wf, x.event), calls[d], d);
      }
    }
  }

  lemma RowsKeepPosts(feed: seq<Posted>, calls: seq<Attempt>, c: nat, rows: map<nat, Row>, row: Row)
    requires PostsOk(feed, calls, rows) && c < |calls| && calls[c].exec in rows && row.wf == rows[calls[c].exec].wf
    ensures PostsOk(feed, calls[c := Advanced(calls[c])], rows[calls[c].exec := row])
    ensures PostsOk(feed, calls[c := Advanced(calls[c])], rows)
  {
  }

  lemma PerformFeeds(s: State, c: nat)
    requires Inv(s, Nobody) && FeedOk(s) && Enabled(s, Step.Perform(c))
    ensures FeedOk(Apply(s, Step.Perform(c)))
  {
    Stores(s, c, Nobody);
    EffectFeeds(s, c, Apply(s, Step.Perform(c)));
  }

  lemma EffectFeeds(s: State, c: nat, t: State)
    requires FeedOk(s) && Enabled(s, Step.Perform(c)) && s.calls[c].exec in s.rows
    requires t.calls == s.calls[c := Advanced(s.calls[c])]
    requires var x := ScriptOf(s.calls[c])[s.calls[c].pc];
             var e := s.calls[c].exec;
             && t.rows == (if x.SetStatus? then s.rows[e := s.rows[e].(status := x.status)] else s.rows)
             && t.feed == (if x.Publish? then s.feed + [Posted(c, s.rows[e].wf, x.event)] else s.feed)
    ensures FeedOk(t)
  {
    var a, x := s.calls[c], ScriptOf(s.calls[c])[s.calls[c].pc];
    AdvancedPosts(s.feed, s.calls, c, s.rows[a.exec].wf);
    var row := s.rows[a.exec];
    RowsKeepPosts(s.feed, s.calls, c, s.rows, if x.SetStatus? then row.(status := x.status) else row);
  }

  lemma NewCallPosts(feed: seq<Posted>, calls: seq<Attempt>, rows: map<nat, Row>, a: Attempt)
    requires PostsOk(feed, calls, rows) && AllPost(feed, calls) && WellFormed(a.parsed, a.obs) && a.pc == 0
    ensures AllPost(feed, calls + [a])
  {
    NoPostsYet(feed, calls, rows, a);
  }

  lemma NewCallRows(feed: seq<Posted>, calls: seq<Attempt>, rows: map<nat, Row>, a: Attempt)
    requires PostsOk(feed, calls, rows)
    ensures PostsOk(feed, calls + [a], rows)
  {
    forall k | 0 <= k < |feed| ensures PostOk(feed[k], calls + [a], rows) { assert PostOk(feed[k], calls, rows); }
  }

  lemma NoPostsYet(feed: seq<Posted>, calls: seq<Attempt>, rows: map<nat, Row>, a: Attempt)
    requires PostsOk(feed, calls, rows) && WellFormed(a.parsed, a.obs) && a.pc == 0
    ensures CallPosts(feed, a, |calls|)
  {
    forall k | 0 <= k < |feed| ensures feed[k].call != |calls| { assert PostOk(feed[k], calls, rows); }
    NothingPosted(feed, |calls|);
    assert ScriptOf(a)[..0] == [];
  }

  lemma RefusePosts(s: State, c: nat)
    requires FeedOk(s) && Enabled(s, Refuse(c))
    ensures FeedOk(Apply(s, Refuse(c)))
  {
    assert CallPosts(s.feed, s.calls[c], c);
    assert ScriptOf(s.calls[c].(refused := true)) == ScriptOf(s.calls[c]);
  }

  lemma TriggerPosts(s: State, wf: nat, sent: bool)
    requires Referential(s.broker.ledger, s.rows, s.nextExec) && FeedOk(s)
    ensures FeedOk(Apply(s, Trigger(wf, sent)))
  {
    assert s.nextExec !in s.rows;
  }

  lemma TakePosts(s: State, w: nat, dbError: bool, parsed: Option<seq<StepDef>>, obs: seq<Obs>)
    requires FeedOk(s) && Enabled(s, Take(w, dbError, parsed, obs))
    ensures FeedOk(Apply(s, Take(w, dbError, parsed, obs)))
  {
    var m := s.broker.workers[w].msg;
    NewCallPosts(s.feed, s.calls, s.rows, Attempt(m.exec, m.id, parsed, obs, 0, false));
    NewCallRows(s.feed, s.calls, s.rows, Attempt(m.exec, m.id, parsed, obs, 0, false));
  }

  lemma StepFeeds(s: State, step: Step)
    requires Inv(s, Nobody) && FeedOk(s) && Enabled(s, step)
    ensures FeedOk(Apply(s, step))
  {
    match step
    case Trigger(wf, sent) => TriggerPosts(s, wf, sent);
    case Take(w, dbError, parsed, obs) => TakePosts(s, w, dbError, parsed, obs);
    case Perform(c) => PerformFeeds(s, c);
    case Refuse(c) => RefusePosts(s, c);
    case _ =>
  }

  // ----- time passes -----

  predicate Later(a: Attempt, b: Attempt) {
    b == a.(pc := b.pc, refused := b.refused) && a.pc <= b.pc && (a.refused ==> b.refused)
  }

  // Calls only advance, and nothing that was published is taken back.
  ghost predicate Grew(s: State, t: State) {
    && s.feed <= t.feed && |s.calls| <= |t.calls| && (forall c :: 0 <= c < |s.calls| ==> Later(s.calls[c], t.calls[c]))
    && s.broker.ledger <= t.broker.ledger
  }

  lemma StepGrows(s: State, step: Step)
    requires Inv(s, Nobody) && Enabled(s, step)
    ensures Grew(s, Apply(s, step))
  {
    LedgerExtends(s, step);
    if step.Perform? {
      PerformGrows(s, step.call);
    } else {
      OthersGrow(s, step);
    }
  }

  lemma OthersGrow(s: State, step: Step)
    requires Enabled(s, step) && !step.Perform?
    ensures Apply(s, step).feed == s.feed && |s.calls| <= |Apply(s, step).calls|
    ensures forall c :: 0 <= c < |s.calls| ==> Later(s.calls[c], Apply(s, step).calls[c])
  {
  }

  lemma PerformGrows(s: State, c: nat)
    requires Inv(s, Nobody) && Enabled(s, Step.Perform(c))
    ensures s.feed <= Apply(s, Step.Perform(c)).feed
    ensures |Apply(s, Step.Perform(c)).calls| == |s.calls|
    ensures forall d :: 0 <= d < |s.calls| ==> Later(s.calls[d], Apply(s, Step.Perform(c)).calls[d])
  {
    Stores(s, c, Nobody);
  }

  lemma GrewOn(s: State, t: State, u: State)
    requires Grew(s, t) && Grew(t, u)
    ensures Grew(s, u)
  {
    forall c | 0 <= c < |s.calls| ensures Later(s.calls[c], u.calls[c]) {
      assert Later(s.calls[c], t.calls[c]) && Later(t.calls[c], u.calls[c]);
    }
  }

  lemma {:induction false} RunGrows(s: State, trace: seq<Step>)
    requires Inv(s, Nobody) && FeedOk(s) && Legal(s, trace)
    ensures Grew(s, After(s, trace)) && FeedOk(After(s, trace)) && Inv(After(s, trace), Nobody)
    decreases |trace|
  {
    if trace != [] {
      StepGrows(s, trace[0]);
      StepFeeds(s, trace[0]);
      StepKeepsInv(s, trace[0], Nobody);
      RunGrows(Apply(s, trace[0]), trace[1..]);
      GrewOn(s, Apply(s, trace[0]), After(s, trace));
    }
  }

  lemma InitFeeds(n: nat)
    ensures FeedOk(Init(n))
  {
  }

  lemma RunFeeds(n: nat, trace: seq<Step>)
    requires Legal(Init(n), trace)
    ensures Inv(After(Init(n), trace), Nobody) && FeedOk(After(Init(n), trace))
  {
    InitInv(n, Nobody);
    InitFeeds(n);
    RunGrows(Init(n), trace);
  }

  // ----- the end of an execution is announced by complete calls -----

  ghost predicate Announced(s: State, e: nat, st: string) {
    exists k :: 0 <= k < |s.feed| && s.feed[k].event == Finished(e, st)
  }

  ghost predicate EndedBy(s: State, c: nat, e: nat, st: string) {
    && c < |s.calls| && s.calls[c].exec == e && Complete(s.calls[c])
    && Execute(EngineFactory, e, s.calls[c].parsed, s.calls[c].obs).status == st
  }

  lemma {:induction false} EventsHold(es: seq<Effect>, ev: Event)
    ensures ev in EventsOf(es) <==> Publish(ev) in es
  {
    if es != [] {
      EventsHold(es[1..], ev);
      assert es == [es[0]] + es[1..];
    }
  }

  lemma LastEffectEnds(s: seq<Effect>, e: nat, final: string, n: nat, ev: Event)
    requires EndsOnce(s, e, final) && n <= |s| && ev.Finished?
    ensures Publish(ev) in s[..n] <==> n == |s| && ev == Finished(e, final)
  {
    assert forall k :: 0 <= k < |s| - 1 ==> s[k] == s[..|s| - 1][k];
    if n == |s| { assert s[..n][n - 1] == s[n - 1]; }
  }

  // A run publishes finishes of its own execution only, and only as its last effect.
  lemma ScriptFinish(a: Attempt, ev: Event)
    requires WellFormed(a.parsed, a.obs) && a.pc <= |ScriptOf(a)| && ev.Finished?
    ensures ev in EventsOf(ScriptOf(a)[..a.pc]) <==>
              a.pc == |ScriptOf(a)|
              && ev == Finished(a.exec, Execute(EngineFactory, a.exec, a.parsed, a.obs).status)
  {
    ScriptEndsOnce(a.exec, a.parsed, a.obs);
    EventsHold(ScriptOf(a)[..a.pc], ev);
    LastEffectEnds(ScriptOf(a), a.exec, Execute(EngineFactory, a.exec, a.parsed, a.obs).status, a.pc, ev);
  }

  lemma PostEnds(s: State, k: nat, e: nat, st: string)
    requires Inv(s, Nobody) && FeedOk(s) && k < |s.feed| && s.feed[k].event == Finished(e, st)
    ensures EndedBy(s, s.feed[k].call, e, st)
  {
    var c := s.feed[k].call;
    assert CallOk(s.calls[c], s.broker.ledger) && CallPosts(s.feed, s.calls[c], c);
    PostedHolds(s.feed, c, Finished(e, st));
    ScriptFinish(s.calls[c], Finished(e, st));
    ScriptEndsOnce(s.calls[c].exec, s.calls[c].parsed, s.calls[c].obs);
  }

  lemma EndPosts(s: State, c: nat, e: nat, st: string) returns (k: nat)
    requires FeedOk(s) && EndedBy(s, c, e, st)
    ensures k < |s.feed| && s.feed[k].call == c && s.feed[k].event == Finished(e, st)
  {
    assert CallPosts(s.feed, s.calls[c], c);
    ScriptFinish(s.calls[c], Finished(e, st));
    PostedHolds(s.feed, c, Finished(e, st));
    k :| 0 <= k < |s.feed| && s.feed[k].call == c && s.feed[k].event == Finished(e, st);
  }

  lemma AnnouncedByCalls(s: State, e: nat, st: string)
    requires Inv(s, Nobody) && FeedOk(s)
    ensures Announced(s, e, st) <==> exists c: nat :: EndedBy(s, c, e, st)
  {
    if Announced(s, e, st) {
      var k :| 0 <= k < |s.feed| && s.feed[k].event == Finished(e, st);
      PostEnds(s, k, e, st);
    }
    if c: nat :| EndedBy(s, c, e, st) { var k := EndPosts(s, c, e, st); }
  }

  // In every reachable state, whatever failed before: an end is on the channel if and only if some call of that
  // execution has run to that end.
  lemma AnnouncedExactly(n: nat, trace: seq<Step>, e: nat, st: string)
    requires Legal(Init(n), trace)
    ensures var s := After(Init(n), trace);
            Announced(s, e, st) <==> exists c: nat :: EndedBy(s, c, e, st)
  {
    RunFeeds(n, trace);
    AnnouncedByCalls(After(Init(n), trace), e, st);
  }

  // ----- the client of an execution -----

  // Message a's execution as the stream handler reads it in state s.
  function RowAt(s: State, a: P.Accepted): ExecutionRow {
    ExecutionRow(a.exec, a.wf, StatusOf(s, a.exec))
  }

  // What a subscription to workflow w's channel made in state sub has been sent in state end.
  function SentTo(sub: State, end: State, w: nat): seq<Event> {
    if sub.feed <= end.feed then OnChannel(end.feed[|sub.feed|..], w) else []
  }

  lemma EndIsOwn(s: State, c: nat, id: nat, st: string)
    requires Inv(s, Nobody) && id < |s.broker.ledger| && EndedBy(s, c, s.broker.ledger[id].exec, st)
    ensures LiveFor(s.calls[c], id)
  {
    assert CallOk(s.calls[c], s.broker.ledger);
  }

  // An end that is on the channel has been stored before.
  lemma EndIsStored(s: State, watch: Watch, st: string)
    requires Inv(s, watch) && watch.Only? && watch.id < |s.broker.ledger| && FeedOk(s)
    requires Announced(s, s.broker.ledger[watch.id].exec, st)
    ensures StatusOf(s, s.broker.ledger[watch.id].exec) == st && Terminal(st)
  {
    var e := s.broker.ledger[watch.id].exec;
    Unwatched(s, watch);
    AnnouncedByCalls(s, e, st);
    var c: nat :| EndedBy(s, c, e, st);
    EndIsOwn(s, c, watch.id, st);
    CompleteRow(s, c, watch);
  }

  lemma CompleteStays(s: State, t: State, c: nat, e: nat, st: string)
    requires Grew(s, t) && EndedBy(s, c, e, st) && FeedOk(s) && FeedOk(t) && Inv(t, Nobody)
    ensures EndedBy(t, c, e, st) && PostedBy(t.feed, c) == PostedBy(s.feed, c)
  {
    ScriptStatus(s.calls[c]);
    assert CallOk(t.calls[c], t.broker.ledger);
    assert Later(s.calls[c], t.calls[c]) && CallPosts(t.feed, t.calls[c], c) && CallPosts(s.feed, s.calls[c], c);
    assert ScriptOf(t.calls[c]) == ScriptOf(s.calls[c]);
  }

  // The end of an execution whose message the run is honest towards is published once.
  lemma NotTwice(s: State, t: State, watch: Watch, k: nat, st: string)
    requires Inv(s, Nobody) && Inv(t, watch) && watch.Only? && watch.id < |s.broker.ledger|
    requires Grew(s, t) && FeedOk(s) && FeedOk(t)
    requires |s.feed| <= k < |t.feed| && t.feed[k].event == Finished(s.broker.ledger[watch.id].exec, st)
    ensures !Announced(s, s.broker.ledger[watch.id].exec, st)
  {
    var e := s.broker.ledger[watch.id].exec;
    var d := t.feed[k].call;
    Unwatched(t, watch);
    PostEnds(t, k, e, st);
    EndIsOwn(t, d, watch.id, st);
    AnnouncedByCalls(s, e, st);
    if c: nat :| EndedBy(s, c, e, st) {
      SameEnd(s, t, watch, c, d, st);
      PostedTwice(s.feed, t.feed, k);
    }
  }

  lemma SameEnd(s: State, t: State, watch: Watch, c: nat, d: nat, st: string)
    requires Inv(s, Nobody) && Inv(t, watch) && watch.Only? && watch.id < |s.broker.ledger|
    requires Grew(s, t) && FeedOk(s) && FeedOk(t)
    requires EndedBy(s, c, s.broker.ledger[watch.id].exec, st) && d < |t.calls| && LiveFor(t.calls[d], watch.id)
    ensures c == d && PostedBy(t.feed, c) == PostedBy(s.feed, c)
  {
    var e := s.broker.ledger[watch.id].exec;
    EndIsOwn(s, c, watch.id, st);
    Unwatched(t, watch);
    CompleteStays(s, t, c, e, st);
    assert Later(s.calls[c], t.calls[c]);
    OneLive(t, c, d, watch);
  }

  lemma PostedTwice(before: seq<Posted>, after: seq<Posted>, k: nat)
    requires before <= after && |before| <= k < |after|
    ensures PostedBy(after, after[k].call) != PostedBy(before, after[k].call)
  {
    var c, later := after[k].call, after[|before|..];
    PostedSplit(before, after, c);
    assert later[k - |before|] == after[k];
    PostedHolds(later, c, after[k].event);
  }

  lemma OwnChannel(t: State, k: nat, id: nat, st: string)
    requires Inv(t, Nobody) && FeedOk(t) && id < |t.broker.ledger| && k < |t.feed|
    requires t.feed[k].event == Finished(t.broker.ledger[id].exec, st)
    ensures t.feed[k].wf == t.broker.ledger[id].wf
  {
    PostEnds(t, k, t.broker.ledger[id].exec, st);
    assert PostOk(t.feed[k], t.calls, t.rows);
  }

  lemma InSuffix(before: seq<Posted>, after: seq<Posted>, p: Posted)
    requires before <= after
    ensures p in after <==> p in before || p in after[|before|..]
  {
    assert after == before + after[|before|..];
  }

  lemma SentEnd(s: State, t: State, id: nat, st: string)
    requires Inv(t, Nobody) && FeedOk(t) && s.feed <= t.feed && id < |t.broker.ledger|
    requires Announced(t, t.broker.ledger[id].exec, st) && !Announced(s, t.broker.ledger[id].exec, st)
    ensures Finished(t.broker.ledger[id].exec, st) in SentTo(s, t, t.broker.ledger[id].wf)
  {
    var a, later := t.broker.ledger[id], t.feed[|s.feed|..];
    var k :| 0 <= k < |t.feed| && t.feed[k].event == Finished(a.exec, st);
    OwnChannel(t, k, id, st);
    InSuffix(s.feed, t.feed, t.feed[k]);
    ChannelHolds(later, a.wf, Finished(a.exec, st));
  }

  lemma SentPost(s: State, t: State, w: nat, ev: Event) returns (k: nat)
    requires s.feed <= t.feed && ev in SentTo(s, t, w)
    ensures |s.feed| <= k < |t.feed| && t.feed[k].event == ev && t.feed[k].wf == w
  {
    var later := t.feed[|s.feed|..];
    ChannelHolds(later, w, ev);
    var i :| 0 <= i < |later| && later[i].wf == w && later[i].event == ev;
    k := |s.feed| + i;
  }

  lemma EndIsSent(s: State, t: State, watch: Watch, st: string)
    requires Inv(s, Nobody) && Inv(t, watch) && watch.Only? && watch.id < |s.broker.ledger|
    requires Grew(s, t) && FeedOk(s) && FeedOk(t)
    ensures var a := s.broker.ledger[watch.id];
            Finished(a.exec, st) in SentTo(s, t, a.wf) <==> Announced(t, a.exec, st) && !Announced(s, a.exec, st)
  {
    var a := s.broker.ledger[watch.id];
    if Finished(a.exec, st) in SentTo(s, t, a.wf) {
      var k := SentPost(s, t, a.wf, Finished(a.exec, st));
      NotTwice(s, t, watch, k, st);
    }
    if Announced(t, a.exec, st) && !Announced(s, a.exec, st) {
      Unwatched(t, watch);
      SentEnd(s, t, watch.id, st);
    }
  }

  // No other execution ends on the channel.
  ghost predicate OnlyEnd(events: seq<Event>, e: nat) {
    forall k :: 0 <= k < |events| && events[k].Finished? ==> events[k].execId == e
  }

  // If all ends among the events are the same, it is the first one exactly when it is there at all.
  lemma FirstOfItsKind(events: seq<Event>, over: Event)
    requires over.Finished? && forall k :: 0 <= k < |events| && events[k].Finished? ==> events[k] == over
    ensures EndsFirst(events, over) <==> over in events
  {
    var k := FindFinish(events);
    if k < |events| { assert FirstFinish(events, k); }
  }

  lemma OneVerdictSent(s: State, t: State, watch: Watch, k: nat)
    requires Inv(t, watch) && watch.Only? && watch.id < |s.broker.ledger|
    requires Grew(s, t) && FeedOk(t)
    requires var a := s.broker.ledger[watch.id]; OnlyEnd(SentTo(s, t, a.wf), a.exec)
    requires k < |SentTo(s, t, s.broker.ledger[watch.id].wf)| && SentTo(s, t, s.broker.ledger[watch.id].wf)[k].Finished?
    ensures var a := s.broker.ledger[watch.id];
            SentTo(s, t, a.wf)[k] == Finished(a.exec, StatusOf(t, a.exec))
  {
    var a := s.broker.ledger[watch.id];
    var ev := SentTo(s, t, a.wf)[k];
    var j := SentPost(s, t, a.wf, ev);
    EndIsStored(t, watch, ev.status);
  }

  lemma LiveClient(read: State, s: State, t: State, watch: Watch, st: string)
    requires Inv(s, Nobody) && Inv(t, watch) && watch.Only? && watch.id < |read.broker.ledger|
    requires Grew(read, s) && Grew(s, t) && FeedOk(s) && FeedOk(t)
    requires var a := read.broker.ledger[watch.id];
             !Terminal(StatusOf(read, a.exec)) && OnlyEnd(SentTo(s, t, a.wf), a.exec)
    ensures var a := read.broker.ledger[watch.id];
            Some(Finished(a.exec, st)) in Decodes(RowAt(read, a), SentTo(s, t, a.wf)) <==>
              Announced(t, a.exec, st) && !Announced(s, a.exec, st)
  {
    var a := read.broker.ledger[watch.id];
    var events := SentTo(s, t, a.wf);
    assert s.broker.ledger[watch.id] == a;
    OwnEndExactly(RowAt(read, a), events, st);
    EndIsSent(s, t, watch, st);
    if Finished(a.exec, st) in events {
      forall k | 0 <= k < |events| && events[k].Finished? ensures events[k] == Finished(a.exec, st) {
        OneVerdictSent(s, t, watch, k);
        EndIsSentStored(s, t, watch, st);
      }
      FirstOfItsKind(events, Finished(a.exec, st));
    }
  }

  lemma EndIsSentStored(s: State, t: State, watch: Watch, st: string)
    requires Inv(t, watch) && watch.Only? && watch.id < |s.broker.ledger| && Grew(s, t) && FeedOk(t)
    requires Finished(s.broker.ledger[watch.id].exec, st) in SentTo(s, t, s.broker.ledger[watch.id].wf)
    ensures st == StatusOf(t, s.broker.ledger[watch.id].exec)
  {
    var a := s.broker.ledger[watch.id];
    var j := SentPost(s, t, a.wf, Finished(a.exec, st));
    EndIsStored(t, watch, st);
  }

  lemma TerminalClient(row: ExecutionRow, events: seq<Event>, st: string)
    requires Terminal(row.status)
    ensures Some(Finished(row.id, st)) in Decodes(row, events) <==> st == row.status
  {
    TerminalResponse(row, Payloads(events));
  }

  lemma SeenIn(read: State, s: State, t: State, watch: Watch, st: string)
    requires Inv(s, Nobody) && Inv(t, watch) && watch.Only? && watch.id < |read.broker.ledger|
    requires Grew(read, s) && Grew(s, t) && FeedOk(s) && FeedOk(t)
    requires var a := read.broker.ledger[watch.id]; OnlyEnd(SentTo(s, t, a.wf), a.exec)
    ensures var a := read.broker.ledger[watch.id];
            Some(Finished(a.exec, st)) in Decodes(RowAt(read, a), SentTo(s, t, a.wf)) <==>
              if Terminal(StatusOf(read, a.exec)) then st == StatusOf(read, a.exec)
              else Announced(t, a.exec, st) && !Announced(s, a.exec, st)
  {
    var a := read.broker.ledger[watch.id];
    if Terminal(StatusOf(read, a.exec)) {
      TerminalClient(RowAt(read, a), SentTo(s, t, a.wf), st);
    } else {
      LiveClient(read, s, t, watch, st);
    }
  }

  // An honest run from the initial state through the moment of the row read and that of the subscription.
  ghost predicate Visit(n: nat, before: seq<Step>, between: seq<Step>, later: seq<Step>, id: nat) {
    && Legal(Init(n), before) && Legal(After(Init(n), before), between)
    && Legal(After(After(Init(n), before), between), later)
    && AllHonest(Init(n), before, Only(id, false)) && AllHonest(After(Init(n), before), between, Only(id, false))
    && AllHonest(After(After(Init(n), before), between), later, Only(id, false))
    && id < |After(Init(n), before).broker.ledger|
  }

  lemma VisitGrows(n: nat, before: seq<Step>, between: seq<Step>, later: seq<Step>, id: nat)
    requires Visit(n, before, between, later, id)
    ensures var read := After(Init(n), before);
            var sub := After(read, between);
            var end := After(sub, later);
            && Inv(read, Only(id, false)) && Inv(sub, Nobody) && Inv(end, Only(id, false))
            && Grew(read, sub) && Grew(sub, end) && FeedOk(sub) && FeedOk(end)
  {
    var read := After(Init(n), before);
    var sub := After(read, between);
    Reached(n, before, Only(id, false));
    RunFeeds(n, before);
    RunGrows(read, between);
    ReachableInv(read, between, Only(id, false));
    RunGrows(sub, later);
    ReachableInv(sub, later, Only(id, false));
  }

  // The client of a run that is honest towards the execution's message sees its end, with the stored verdict, if and
  // only if the handler read the row after the verdict was stored, or the end was published after the subscription;
  // as long as no other execution of the workflow ends in the meantime, wherever in the run the handler reads and
  // subscribes and whatever happens to all other messages.
  lemma EndIsSeenInRun(n: nat, before: seq<Step>, between: seq<Step>, later: seq<Step>, id: nat, st: string)
    requires Visit(n, before, between, later, id)
    requires var read := After(Init(n), before);
             var sub := After(read, between);
             var a := read.broker.ledger[id];
             OnlyEnd(SentTo(sub, After(sub, later), a.wf), a.exec)
    ensures var read := After(Init(n), before);
            var sub := After(read, between);
            var end := After(sub, later);
            var a := read.broker.ledger[id];
            Some(Finished(a.exec, st)) in Decodes(RowAt(read, a), SentTo(sub, end, a.wf)) <==>
              if Terminal(StatusOf(read, a.exec)) then st == StatusOf(read, a.exec)
              else Announced(end, a.exec, st) && !Announced(sub, a.exec, st)
  {
    VisitGrows(n, before, between, later, id);
    var read := After(Init(n), before);
    var sub := After(read, between);
    SeenIn(read, sub, After(sub, later), Only(id, false), st);
  }

  // ----- a lone execution -----

  // Whatever comes on workflow w's channel between two states is from execution e.
  ghost predicate Lone(s: State, t: State, w: nat, e: nat) {
    forall k :: |s.feed| <= k < |t.feed| && t.feed[k].wf == w ==>
      t.feed[k].call < |t.calls| && t.calls[t.feed[k].call].exec == e
  }

  function Pc(s: State, c: nat): nat {
    if c < |s.calls| then s.calls[c].pc else 0
  }

  lemma {:induction false} SameSelection(feed: seq<Posted>, w: nat, c: nat)
    requires forall k :: 0 <= k < |feed| ==> (feed[k].wf == w <==> feed[k].call == c)
    ensures OnChannel(feed, w) == PostedBy(feed, c)
  {
    if feed != [] { SameSelection(feed[1..], w, c); }
  }

  lemma SameSelectionFrom(feed: seq<Posted>, n: nat, w: nat, c: nat)
    requires n <= |feed| && forall k :: n <= k < |feed| ==> (feed[k].wf == w <==> feed[k].call == c)
    ensures OnChannel(feed[n..], w) == PostedBy(feed[n..], c)
  {
    SameSelection(feed[n..], w, c);
  }

  lemma PosterBegan(t: State, k: nat)
    requires FeedOk(t) && k < |t.feed|
    ensures t.calls[t.feed[k].call].pc > 0
  {
    var a := t.calls[t.feed[k].call];
    assert PostOk(t.feed[k], t.calls, t.rows) && CallPosts(t.feed, a, t.feed[k].call);
    assert ScriptOf(a)[..0] == [];
    PostedHolds(t.feed, t.feed[k].call, t.feed[k].event);
  }

  // A post of a watched message's execution comes from its live call.
  lemma PostIsOwn(t: State, watch: Watch, c: nat, k: nat)
    requires Inv(t, watch) && FeedOk(t) && watch.Only? && k < |t.feed| && c < |t.calls| && LiveFor(t.calls[c], watch.id)
    requires PostOk(t.feed[k], t.calls, t.rows) && t.calls[t.feed[k].call].exec == t.calls[c].exec
    ensures t.feed[k].call == c
  {
    var d := t.feed[k].call;
    PosterBegan(t, k);
    assert CallOk(t.calls[d], t.broker.ledger);
    SameExecSameMsg(t, c, d);
    OneLive(t, c, d, watch);
  }

  lemma LonePost(s: State, t: State, watch: Watch, c: nat, k: nat)
    requires Inv(t, watch) && FeedOk(t) && watch.Only? && watch.id < |t.broker.ledger|
    requires c < |t.calls| && LiveFor(t.calls[c], watch.id) && |s.feed| <= k < |t.feed|
    requires Lone(s, t, t.broker.ledger[watch.id].wf, t.calls[c].exec)
    ensures t.feed[k].wf == t.broker.ledger[watch.id].wf <==> t.feed[k].call == c
  {
    assert CallOk(t.calls[c], t.broker.ledger) && PostOk(t.feed[k], t.calls, t.rows);
    if t.feed[k].wf == t.broker.ledger[watch.id].wf { PostIsOwn(t, watch, c, k); }
  }

  lemma LonePosts(s: State, t: State, watch: Watch, c: nat)
    requires Inv(t, watch) && FeedOk(t) && watch.Only? && watch.id < |t.broker.ledger| && s.feed <= t.feed
    requires c < |t.calls| && LiveFor(t.calls[c], watch.id)
    requires Lone(s, t, t.broker.ledger[watch.id].wf, t.calls[c].exec)
    ensures SentTo(s, t, t.broker.ledger[watch.id].wf) == PostedBy(t.feed[|s.feed|..], c)
  {
    var w := t.broker.ledger[watch.id].wf;
    forall k | |s.feed| <= k < |t.feed| ensures t.feed[k].wf == w <==> t.feed[k].call == c {
      LonePost(s, t, watch, c, k);
    }
    SameSelectionFrom(t.feed, |s.feed|, w, c);
  }

  lemma PostedUpTo(s: State, c: nat, script: seq<Effect>)
    requires FeedOk(s)
    requires c < |s.calls| ==> WellFormed(s.calls[c].parsed, s.calls[c].obs) && ScriptOf(s.calls[c]) == script
    ensures Pc(s, c) <= |script| && PostedBy(s.feed, c) == EventsOf(script[..Pc(s, c)])
  {
    if c < |s.calls| {
      assert CallPosts(s.feed, s.calls[c], c);
    } else {
      forall k | 0 <= k < |s.feed| ensures s.feed[k].call != c { assert PostOk(s.feed[k], s.calls, s.rows); }
      NothingPosted(s.feed, c);
      assert script[..0] == [];
    }
  }

  // The events of a call between two states are those of the part of its run performed in between.
  lemma PostedBetween(s: State, t: State, c: nat)
    requires FeedOk(s) && FeedOk(t) && Grew(s, t) && c < |t.calls| && Complete(t.calls[c])
    ensures Pc(s, c) <= |ScriptOf(t.calls[c])|
    ensures PostedBy(t.feed[|s.feed|..], c) == EventsOf(ScriptOf(t.calls[c])[Pc(s, c)..])
  {
    var script, p := ScriptOf(t.calls[c]), Pc(s, c);
    assert c < |s.calls| ==> Later(s.calls[c], t.calls[c]);
    PostedUpTo(s, c, script);
    PostedUpTo(t, c, script);
    PostedSplit(s.feed, t.feed, c);
    EventsSplit(script, p);
    Cancel(EventsOf(script[..p]), PostedBy(t.feed[|s.feed|..], c), EventsOf(script[p..]));
  }

  lemma EventsSplit(script: seq<Effect>, p: nat)
    requires p <= |script|
    ensures EventsOf(script[..|script|]) == EventsOf(script[..p]) + EventsOf(script[p..])
  {
    EventsAppend(script[..p], script[p..]);
    assert script[..|script|] == script[..p] + script[p..];
  }

  lemma StatusSoFar(s: State, t: State, watch: Watch, c: nat)
    requires Inv(s, watch) && Inv(t, watch) && watch.Only? && watch.id < |s.broker.ledger| && Grew(s, t)
    requires c < |t.calls| && LiveFor(t.calls[c], watch.id) && Complete(t.calls[c])
    ensures Pc(s, c) <= |ScriptOf(t.calls[c])|
    ensures StatusOf(s, s.broker.ledger[watch.id].exec) == StatusAfter("pending", ScriptOf(t.calls[c])[..Pc(s, c)])
  {
    var script, p := ScriptOf(t.calls[c]), Pc(s, c);
    assert script[..0] == [];
    assert c < |s.calls| ==> Later(s.calls[c], t.calls[c]) && CallOk(s.calls[c], s.broker.ledger);
    if c < |s.calls| {
      assert LiveFor(s.calls[c], watch.id);
    } else if d :| 0 <= d < |s.calls| && LiveFor(s.calls[d], watch.id) {
      Uncommitted(s, t, watch, c, d);
    } else {
      NoneLive(s.calls, watch.id);
    }
  }

  lemma {:induction false} NoneLive(calls: seq<Attempt>, id: nat)
    requires forall d :: 0 <= d < |calls| ==> !LiveFor(calls[d], id)
    ensures Live(calls, id) == 0
  {
    if calls != [] { NoneLive(calls[1..], id); }
  }

  // A call that is refused later has done nothing yet.
  lemma Uncommitted(s: State, t: State, watch: Watch, c: nat, d: nat)
    requires Inv(s, watch) && Inv(t, watch) && watch.Only? && watch.id < |s.broker.ledger| && Grew(s, t)
    requires c < |t.calls| && LiveFor(t.calls[c], watch.id)
    requires d < |s.calls| && d != c && LiveFor(s.calls[d], watch.id)
    ensures StatusOf(s, s.broker.ledger[watch.id].exec) == "pending"
  {
    assert Later(s.calls[d], t.calls[d]) && CallOk(s.calls[d], s.broker.ledger) && CallOk(t.calls[d], t.broker.ledger);
    if !t.calls[d].refused { OneLive(t, c, d, watch); }
    assert ScriptOf(s.calls[d])[..0] == [];
  }

  // If no other execution of the workflow publishes between the subscription and the end of the run, the client is
  // the one of Delivery, at the effects of the run that had been performed when the handler read and subscribed.
  lemma LoneIsClient(read: State, s: State, t: State, watch: Watch, c: nat)
    requires Inv(read, watch) && Inv(s, Nobody) && Inv(t, watch) && watch.Only? && watch.id < |read.broker.ledger|
    requires Grew(read, s) && Grew(s, t) && FeedOk(s) && FeedOk(t)
    requires c < |t.calls| && t.calls[c].msg == watch.id && Complete(t.calls[c])
    requires Lone(s, t, read.broker.ledger[watch.id].wf, read.broker.ledger[watch.id].exec)
    ensures Pc(read, c) <= Pc(s, c) <= |ScriptOf(t.calls[c])|
    ensures var a := read.broker.ledger[watch.id];
            Decodes(RowAt(read, a), SentTo(s, t, a.wf))
            == Client(a.exec, a.wf, ScriptOf(t.calls[c]), Pc(read, c), Pc(s, c))
  {
    var a := read.broker.ledger[watch.id];
    assert t.broker.ledger[watch.id] == a && CallOk(t.calls[c], t.broker.ledger);
    GrewOn(read, s, t);
    LonePosts(s, t, watch, c);
    PostedBetween(s, t, c);
    StatusSoFar(read, t, watch, c);
    assert c < |read.calls| ==> Later(read.calls[c], s.calls[c]);
  }

  // So in a run that is honest towards the execution's message, once it has ended, all that is said of such a client
  // holds of what the handler sends.
  lemma LoneInRun(n: nat, before: seq<Step>, between: seq<Step>, later: seq<Step>, id: nat, c: nat)
    requires Visit(n, before, between, later, id)
    requires var read := After(Init(n), before);
             var sub := After(read, between);
             var end := After(sub, later);
             && c < |end.calls| && end.calls[c].msg == id && Complete(end.calls[c])
             && Lone(sub, end, read.broker.ledger[id].wf, read.broker.ledger[id].exec)
    ensures var read := After(Init(n), before);
            var sub := After(read, between);
            var end := After(sub, later);
            var a, run := read.broker.ledger[id], end.calls[c];
            var got := Decodes(RowAt(read, a), SentTo(sub, end, a.wf));
            var final := Execute(EngineFactory, a.exec, run.parsed, run.obs).status;
            && Pc(sub, c) <= |ScriptOf(run)|
            && Delivers(got, a.exec, ScriptOf(run), final, Pc(read, c), Pc(sub, c))
  {
    VisitGrows(n, before, between, later, id);
    var read := After(Init(n), before);
    var sub := After(read, between);
    var end := After(sub, later);
    LoneIsClient(read, sub, end, Only(id, false), c);
    var a, run := read.broker.ledger[id], end.calls[c];
    assert CallOk(run, end.broker.ledger);
    StreamDelivery(a.exec, a.wf, run.parsed, run.obs, Pc(read, c), Pc(sub, c));
  }
}
