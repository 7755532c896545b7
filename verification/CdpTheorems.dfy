/** The main results about the browser manager, over every run from the initial state. */
module CdpTheorems {
  import opened CdpModel
  import opened CdpInvariants
  import opened CdpFreeing
  import opened CdpReplies

  // ---- what the calls of user callbacks can do ----

  ghost predicate MuxFrame(m: Mux, n: Mux) {
    && n.answered == m.answered && m.dropped <= n.dropped && m.cmdId <= n.cmdId
    && m.wire <= n.wire && (n.wsReady ==> m.wsReady)
    && (forall i :: i in m.issued && i < m.cmdId ==> i in n.issued && n.issued[i] == m.issued[i])
  }

  ghost predicate PoolFrame(p: Pool, r: Pool) {
    && r.nextPtr == p.nextPtr && r.heap.Keys <= p.heap.Keys
    && (forall q :: q in r.contexts ==> q in p.contexts && r.contexts[q] == p.contexts[q])
    && (forall x :: p.freed[x] <= r.freed[x])
    && (forall x :: x in r.heap ==> r.heap[x].platform == p.heap[x].platform && (p.heap[x].closed ==> r.heap[x].closed))
  }

  ghost predicate PollerFrame(p: Poller, r: Poller) {
    && p.waits <= r.waits && p.polls <= r.polls && r.found == p.found && r.stalled == p.stalled
    && (forall w :: 0 <= w < |p.waits| ==> r.timedOut[w] == p.timedOut[w] && r.posted[w] == p.posted[w])
  }

  ghost predicate TimersFrame(t: Timers, u: Timers) {
    && t.owner <= u.owner && u.ran == t.ran && |t.alive| <= |u.alive|
    && (forall g :: 0 <= g < |t.alive| && u.alive[g] ==> t.alive[g])
  }

  /** What the calls made by a user callback leave alone: answers, registered handlers, what was sent,
      the fate of existing waits, and which deferred callbacks ran.  They neither allocate a context nor
      put one into the cache; they may remove cached ones, stop the manager, and start its launch. */
  ghost predicate ActFrame(s: Mgr, t: Mgr) {
    && (t.started ==> s.started) && t.clock == s.clock
    && MuxFrame(s.mux, t.mux) && PoolFrame(s.pool, t.pool) && PollerFrame(s.poller, t.poller) && TimersFrame(s.timers, t.timers)
    && t.book.silent == s.book.silent && s.book.calls <= t.book.calls
  }

  lemma PoolTrans(p: Pool, r: Pool, u: Pool)
    requires PoolFrame(p, r) && PoolFrame(r, u)
    ensures PoolFrame(p, u)
  {
  }

  lemma FrameTrans(s: Mgr, t: Mgr, u: Mgr)
    requires ActFrame(s, t) && ActFrame(t, u)
    ensures ActFrame(s, u)
  {
    PoolTrans(s.pool, t.pool, u.pool);
    hide PoolFrame;
  }

  lemma IssueFrame(m: Mux, h: Handler, name: Method, session: string, arg: string)
    ensures MuxFrame(m, Issue(m, h, name, session, arg))
  {
  }

  lemma SelfFrame(m: Mux)
    ensures MuxFrame(m, m) && MuxFrame(m, Reset(m))
  {
  }

  lemma SendFrame(s: Mgr, h: Handler, name: Method, session: string, arg: string)
    ensures ActFrame(s, SendCommand(s, h, name, session, arg))
  {
    hide Issue, MuxFrame;
    IssueFrame(s.mux, h, name, session, arg);
  }

  lemma AskFrame(s: Mgr, q: string)
    ensures ActFrame(s, AskContext(s, q))
  {
    hide Issue, MuxFrame;
    SelfFrame(s.mux);
    IssueFrame(s.mux, Create(|s.book.calls|, q), CreateTarget, "", "");
  }

  lemma StartCloseFrame(s: Mgr, x: nat)
    requires x in s.pool.heap
    ensures ActFrame(s, StartClose(s, x))
  {
    hide Issue, MuxFrame;
    IssueFrame(s.mux, Close(x), CloseTarget, "", s.pool.heap[x].target);
  }

  lemma DeferFrame(s: Mgr, x: nat)
    requires x in s.pool.heap
    ensures ActFrame(s, Defer(s, x))
  {
    hide MuxFrame;
    SelfFrame(s.mux);
  }

  lemma WaitFrame(s: Mgr, x: nat, css: string, timeout: nat)
    ensures ActFrame(s, s) && ActFrame(s, Dangle(s))
    ensures ActFrame(s, RefuseWait(s, x, css, timeout)) && ActFrame(s, StartWait(s, x, css, timeout))
  {
    hide MuxFrame;
    SelfFrame(s.mux);
  }

  lemma RemoveFrame(s: Mgr, q: string)
    ensures ActFrame(s, RemoveContext(s, q))
  {
    hide MuxFrame;
    SelfFrame(s.mux);
  }

  lemma StopFrame(s: Mgr)
    ensures ActFrame(s, OnStop(s))
  {
    hide MuxFrame, PoolFrame, ClearGuards;
    SelfFrame(s.mux);
    ClearFrame(s.pool);
    WaitFrame(s, 0, "", 0);
  }

  lemma ClearFrame(p: Pool)
    ensures var gone := p.contexts.Values;
            PoolFrame(p, p.(contexts := map[], heap := p.heap - gone, freed := p.freed + multiset(gone)))
  {
  }

  lemma StartFrame(s: Mgr)
    ensures ActFrame(s, OnStart(s))
  {
    hide MuxFrame, Reset;
    SelfFrame(s.mux);
  }

  lemma EnterContextFrame(s: Mgr, a: Act)
    requires (a.Operate? || a.PressKey? || a.CloseContext? || a.After? || a.WaitFor?) && a.ptr in s.pool.heap
    ensures ActFrame(s, EnterContext(s, a))
  {
    WaitFrame(s, 0, "", 0);
    hide ActFrame, SendCommand, StartClose, Defer, RefuseWait, StartWait;
    var t := s.pool.heap[a.ptr];
    match a
    case Operate(_, _, tag, _) => SendFrame(s, User(tag), Other, t.session, "");
    case PressKey(x, tag, _) => SendFrame(s, KeyDown(x, tag), DispatchKey, t.session, "keyDown");
    case CloseContext(x, _) => StartCloseFrame(s, x);
    case After(x) => DeferFrame(s, x);
    case WaitFor(x, css, timeout, _) => WaitFrame(s, x, css, timeout);
  }

  lemma EnterFrame(s: Mgr, a: Act)
    ensures ActFrame(s, Enter(s, a))
  {
    hide ActFrame, SendCommand, AskContext, RemoveContext, OnStart, OnStop, EnterContext, Dangle;
    match a
    case Send(tag) => SendFrame(s, User(tag), Other, "", "");
    case GetContext(q, _) => AskFrame(s, q);
    case RemoveFromCache(q) => RemoveFrame(s, q);
    case StartManager => StartFrame(s);
    case StopManager => StopFrame(s);
    case _ =>
      WaitFrame(s, 0, "", 0);
      if Usable(s.pool, a.ptr) { EnterContextFrame(s, a); }
  }

  lemma RunActsFrame(s: Mgr, acts: seq<Act>)
    ensures ActFrame(s, RunActs(s, acts))
    decreases acts, 0
  {
    hide ActFrame;
    if acts == [] {
      WaitFrame(s, 0, "", 0);
    } else {
      RunActFrame(s, acts[0]);
      RunActsFrame(RunAct(s, acts[0]), acts[1..]);
      FrameTrans(s, RunAct(s, acts[0]), RunActs(s, acts));
    }
  }

  lemma RunActFrame(s: Mgr, a: Act)
    ensures ActFrame(s, RunAct(s, a))
    decreases a, 1
  {
    hide ActFrame, Enter;
    EnterFrame(s, a);
    if AtOnce(s, a) {
      RunActsFrame(Enter(s, a), a.inner);
      FrameTrans(s, Enter(s, a), RunAct(s, a));
    }
  }

  // ---- a step is what the manager does by itself, followed by a user callback ----

  /** The state of the step just before the user callback it may call. */
  function Before(s: Mgr, e: Event): Mgr {
    match e
    case Call(acts) => s
    case Reply(id, ok, data, dt, acts) =>
      if id in s.mux.pending then React(Answer(Tick(s, dt, true), id, ok), s.mux.pending[id], ok, data)
      else Tick(s, dt, true)
    case Checked(w, dt, acts) =>
      if w in s.poller.posted then Check(Unpost(Tick(s, dt, false), w), w) else Tick(s, dt, false)
    case Fired(g, acts) =>
      if g in s.timers.armed then Disarm(s, g, FiresCallback(s, g)) else s
    case Opened => Step(s, e)
    case Start => Step(s, e)
    case Launched(_) => Step(s, e)
    case Stop => Step(s, e)
  }

  /** The calls of the user callback that the step invokes, none if it invokes none. */
  function Callback(s: Mgr, e: Event): seq<Act> {
    match e
    case Call(acts) => acts
    case Reply(id, ok, data, dt, acts) =>
      if id in s.mux.pending && CallsUser(Answer(Tick(s, dt, true), id, ok), s.mux.pending[id], ok, data) then acts else []
    case Checked(w, dt, acts) =>
      if w in s.poller.posted && CheckTimesOut(Tick(s, dt, false), w) then acts else []
    case Fired(g, acts) => if FiresCallback(s, g) then acts else []
    case _ => []
  }

  lemma StepSplits(s: Mgr, e: Event)
    ensures var t := RunActs(Before(s, e), Callback(s, e));
            Step(s, e) == if e.Reply? && e.id in s.mux.pending then Erase(t, e.id) else t
  {
    hide React, Check, Open, OnStart, OnStop, RunAct, Tick, Answer, Unpost, Disarm, CallsUser, CheckTimesOut;
    if e.Reply? || e.Checked? { Ticked(s, e.dt, e.Reply?); }
  }

  lemma Ticked(s: Mgr, dt: nat, reply: bool)
    ensures Tick(s, dt, reply).mux == s.mux && Tick(s, dt, reply).poller.posted == s.poller.posted
  {
  }

  lemma CheckLeaves(s: Mgr, w: nat)
    ensures var t := Check(s, w);
            t.pool == s.pool && t.book == s.book && t.timers == s.timers && t.started == s.started && t.clock == s.clock
  {
    hide Issue;
  }

  lemma AttachedLeaves(s: Mgr, c: nat, q: string, target: string, session: string)
    ensures var t := Attached(s, c, q, target, session);
            && t.pool.contexts == s.pool.contexts && t.pool.freed == s.pool.freed
            && t.timers == s.timers && t.poller == s.poller && t.started == s.started
            && t.book == s.book.(callCmd := s.book.callCmd[c := s.mux.cmdId])
  {
    hide Issue;
  }

  lemma StepFrame(s: Mgr, e: Event)
    ensures ActFrame(Before(s, e), Step(s, e))
  {
    StepSplits(s, e);
    var b := Before(s, e);
    var t := RunActs(b, Callback(s, e));
    hide Before, Callback, Step, ActFrame;
    RunActsFrame(b, Callback(s, e));
    if e.Reply? { EraseFrame(b, t, e.id); }
  }

  lemma EraseFrame(s: Mgr, t: Mgr, id: int)
    requires ActFrame(s, t)
    ensures ActFrame(s, Erase(t, id))
  {
  }

  // ---- the multiplexer ----

  /** Over every run the keys of pending_ are the issued ids minus the answered ones, each entry is
      the handler registered with its id, and no handler pair is run twice or on both sides. */
  lemma CommandIds(es: seq<Event>)
    ensures var m := Run(Init(), es).mux;
            && (forall i :: i in m.pending <==> 0 <= i < m.cmdId && Answers(m, i) == 0)
            && (forall i :: i in m.pending ==> i in m.issued && m.pending[i] == m.issued[i])
            && (forall i :: Answers(m, i) <= 1)
  {
    InitInv();
    RunInv(Init(), es);
  }

  /** Over every run with restarts, the ids passed to sendText strictly increase, the offline queue
      is empty while the socket is ready, and every issued id was sent, is queued or was dropped by
      start(), in exactly one of the three ways. */
  lemma WireOrder(es: seq<Event>)
    ensures var m := Run(Init(), es).mux;
            && Increasing(m.wire)
            && (m.wsReady ==> m.queue == [])
            && (forall i :: 0 <= i < m.cmdId <==> i in Ids(m.wire) || i in Ids(m.queue) || i in m.dropped)
            && Ids(m.wire) !! Ids(m.queue) && Ids(m.wire) !! m.dropped && Ids(m.queue) !! m.dropped
  {
    InitInv();
    RunInv(Init(), es);
    var m := Run(Init(), es).mux;
    var all := m.wire + m.queue;
    IdsSplit(m.wire, m.queue);
    forall i, j | 0 <= i < j < |m.wire| ensures m.wire[i].id < m.wire[j].id {
      assert all[i].id < all[j].id;
    }
    forall j, k | 0 <= j < |m.wire| && 0 <= k < |m.queue| ensures m.wire[j].id != m.queue[k].id {
      assert all[j].id < all[|m.wire| + k].id;
    }
  }

  lemma AttachedMux(s: Mgr, c: nat, q: string, target: string, session: string)
    ensures MuxFrame(s.mux, Attached(s, c, q, target, session).mux)
  {
    var m := Issue(s.mux, AddScript(c, q, s.pool.nextPtr), AddInitScript, session, "");
    IssueFrame(s.mux, AddScript(c, q, s.pool.nextPtr), AddInitScript, session, "");
    IssueFrame(m, Noop, PageEnable, session, "");
    hide Issue;
  }

  lemma CheckMux(s: Mgr, w: nat)
    ensures MuxFrame(s.mux, Check(s, w).mux)
  {
    SelfFrame(s.mux);
    hide MuxFrame, Issue;
    if w < |s.poller.waits| && s.poller.waits[w].ctx in s.pool.heap {
      IssueFrame(s.mux, Poll(w), Evaluate, s.pool.heap[s.poller.waits[w].ctx].session, s.poller.waits[w].css);
    }
  }

  lemma ReactMux(s: Mgr, h: Handler, ok: bool, data: Payload)
    ensures MuxFrame(s.mux, React(s, h, ok, data).mux)
  {
    SelfFrame(s.mux);
    hide ClearGuards, Issue, Attached, Check, MuxFrame;
    match h
    case Create(c, q) =>
      IssueFrame(s.mux, Attach(c, q, data.text), AttachToTarget, "", data.text);
    case Attach(c, q, target) =>
      AttachedMux(s, c, q, target, data.text);
    case Poll(w) =>
      CheckMux(s, w);
    case KeyDown(x, tag) =>
      if x in s.pool.heap { IssueFrame(s.mux, User(tag), DispatchKey, s.pool.heap[x].session, "keyUp"); }
    case _ =>
  }

  /** Once answered, an id stays answered, and the handler registered with an id never changes. */
  ghost predicate Settled(m: Mux, n: Mux) {
    && (forall i :: Answers(m, i) <= Answers(n, i))
    && (forall i :: i in m.issued ==> i in n.issued && n.issued[i] == m.issued[i])
  }

  lemma FrameSettled(m: Mux, n: Mux)
    requires PendingOk(m) && MuxFrame(m, n)
    ensures Settled(m, n)
  {
    forall i ensures Answers(n, i) == Answers(m, i) {}
  }

  lemma StepSettled(s: Mgr, e: Event)
    requires Inv(s)
    ensures Settled(s.mux, Step(s, e).mux)
  {
    assert PendingOk(s.mux);
    hide Inv, Before, Step;
    StepFrame(s, e);
    BeforeSettled(s, e);
    var b, t := Before(s, e).mux, Step(s, e).mux;
    forall i ensures Answers(t, i) == Answers(b, i) {}
  }

  /** Before the user callback: answers only grow, and registered handlers stay, below cmd_id_. */
  lemma BeforeSettled(s: Mgr, e: Event)
    requires PendingOk(s.mux)
    ensures var b := Before(s, e).mux;
            Settled(s.mux, b) && s.mux.cmdId <= b.cmdId && forall i :: i in s.mux.issued ==> i < b.cmdId
  {
    hide ClearGuards, React, Check, Settled;
    match e
    case Reply(id, ok, data, dt, acts) =>
      if id in s.mux.pending {
        BeforeReplySettled(s, id, ok, data, dt, acts);
      } else {
        SameSettled(s.mux, Before(s, e).mux);
      }
    case Checked(w, dt, acts) =>
      CheckMux(Unpost(Tick(s, dt, false), w), w);
      FrameSettled(s.mux, Before(s, e).mux);
    case _ =>
      SameSettled(s.mux, Before(s, e).mux);
  }

  lemma SameSettled(m: Mux, n: Mux)
    requires n.answered == m.answered && forall i :: i in m.issued ==> i in n.issued && n.issued[i] == m.issued[i]
    ensures Settled(m, n)
  {
    forall i ensures Answers(n, i) == Answers(m, i) {}
  }

  lemma BeforeReplySettled(s: Mgr, id: int, ok: bool, data: Payload, dt: nat, acts: seq<Act>)
    requires PendingOk(s.mux) && id in s.mux.pending
    ensures var b := Before(s, Reply(id, ok, data, dt, acts)).mux;
            Settled(s.mux, b) && s.mux.cmdId <= b.cmdId && forall i :: i in s.mux.issued ==> i < b.cmdId
  {
    var s1 := Answer(Tick(s, dt, true), id, ok);
    hide ClearGuards, React, Settled;
    ReactMux(s1, s.mux.pending[id], ok, data);
    ReplySettled(s.mux, s1.mux, Before(s, Reply(id, ok, data, dt, acts)).mux, id, ok);
  }

  lemma ReplySettled(m: Mux, a: Mux, n: Mux, id: int, ok: bool)
    requires PendingOk(m) && a == m.(answered := m.answered + multiset{(id, ok)})
    requires n.answered == a.answered && (forall i :: i in a.issued && i < a.cmdId ==> i in n.issued && n.issued[i] == a.issued[i])
    ensures Settled(m, n)
  {
    forall i ensures Answers(n, i) == Answers(m, i) + if i == id then 1 else 0 {}
  }

  lemma RunSettled(s: Mgr, es: seq<Event>)
    requires Inv(s)
    ensures Settled(s.mux, Run(s, es).mux)
    decreases es
  {
    if es != [] {
      StepInv(s, es[0]);
      StepSettled(s, es[0]);
      RunSettled(Step(s, es[0]), es[1..]);
    }
  }

  /** A late or duplicate reply is dropped: after any further run, restarts included, a second
      reply to an answered id only lets time pass. */
  lemma LateReplyIgnored(s: Mgr, es: seq<Event>, id: int, ok: bool, data: Payload, dt: nat, acts: seq<Act>)
    requires Inv(s) && Answers(s.mux, id) == 1
    ensures var t := Run(s, es);
            Step(t, Reply(id, ok, data, dt, acts)) == Tick(t, dt, true)
  {
    RunInv(s, es);
    RunSettled(s, es);
    assert Answers(s.mux, id) <= Answers(Run(s, es).mux, id);
  }

  /** A reply that reaches a handler reaches the one registered with its id, whenever that was. */
  lemma ReplyReachesItsRequest(s: Mgr, es: seq<Event>, id: int)
    requires Inv(s) && id in s.mux.issued && id in Run(s, es).mux.pending
    ensures Run(s, es).mux.pending[id] == s.mux.issued[id]
  {
    RunInv(s, es);
    RunSettled(s, es);
  }

  // ---- get_context ----

  /** An unanswered command carries call c. */
  ghost predicate CarriesCall(m: Mux, i: int, c: nat) {
    i in m.pending && HasCall(m.pending[i]) && m.pending[i].call == c
  }

  /** Over every run, each get_context call completes at most once and never on both sides; while
      one unanswered command carries it, it has not ended, and once none does, it has ended exactly
      once: through on_ok, through on_error, or silently. */
  lemma GetContextIsLinear(es: seq<Event>, c: nat)
    ensures var s := Run(Init(), es);
            && Ends(s.book, c) <= 1
            && (forall i, j :: CarriesCall(s.mux, i, c) && CarriesCall(s.mux, j, c) ==> i == j)
            && (c < |s.book.calls| ==> (Ends(s.book, c) == 1 <==> !exists i :: CarriesCall(s.mux, i, c)))
            && (c >= |s.book.calls| ==> Ends(s.book, c) == 0)
  {
    InitInv();
    RunInv(Init(), es);
    var s := Run(Init(), es);
    hide Run, PendingOk, WireOk, ScriptsOk, OwnerOk, TokenOk, PollsCarried, FreedOk, CacheOk, OutcomesOk, PollsOk,
         GuardsOk, RanOk;
    if InFlight(s.mux.pending, s.book.callCmd, c) {
      assert CarriesCall(s.mux, s.book.callCmd[c], c);
    }
  }

  lemma ReactSilent(s: Mgr, h: Handler, ok: bool, data: Payload)
    ensures React(s, h, ok, data).book.silent == s.book.silent + if h.AddScript? && !ok then multiset{h.call} else multiset{}
  {
    hide Issue, ClearGuards, Attached, Check;
    if h.Attach? { AttachedLeaves(s, h.call, h.platform, h.target, data.text); }
    if h.Poll? { CheckLeaves(s, h.wait); }
  }

  /** Only an error reply to an add-script command ends a call without a callback. */
  lemma SilentEnd(s: Mgr, e: Event)
    ensures var t := Step(s, e);
            if e.Reply? && !e.ok && e.id in s.mux.pending && s.mux.pending[e.id].AddScript? then
              t.book.silent == s.book.silent + multiset{s.mux.pending[e.id].call}
            else t.book.silent == s.book.silent
  {
    StepFrame(s, e);
    hide Issue, ClearGuards, React;
    if e.Reply? && e.id in s.mux.pending {
      ReactSilent(Answer(Tick(s, e.dt, true), e.id, e.ok), s.mux.pending[e.id], e.ok, e.data);
    }
    assert Step(s, e).book.silent == Before(s, e).book.silent;
  }

  // ---- context ownership ----

  ghost predicate CarriesContext(m: Mux, i: int, x: nat) {
    i in m.pending && m.pending[i].AddScript? && m.pending[i].ctx == x
  }

  ghost predicate CachedUnder(p: Pool, q: string, x: nat) {
    q in p.contexts && p.contexts[q] == x
  }

  /** Over every run, an allocated context is in exactly one place: under one key of the cache, in
      one unanswered add-script entry, or freed; and no context is freed twice. */
  lemma OwnershipConserved(es: seq<Event>, x: nat)
    ensures var s := Run(Init(), es);
            var cached := exists q :: CachedUnder(s.pool, q, x);
            var carried := exists i :: CarriesContext(s.mux, i, x);
            && s.pool.freed[x] <= 1
            && (x < s.pool.nextPtr ==> (if cached then 1 else 0) + (if carried then 1 else 0) + s.pool.freed[x] == 1)
            && (x >= s.pool.nextPtr ==> !cached && !carried && s.pool.freed[x] == 0)
            && (forall q, r :: CachedUnder(s.pool, q, x) && CachedUnder(s.pool, r, x) ==> q == r)
            && (forall i, j :: CarriesContext(s.mux, i, x) && CarriesContext(s.mux, j, x) ==> i == j)
  {
    InitInv();
    RunInv(Init(), es);
    var s := Run(Init(), es);
    hide Run, PendingOk, WireOk, CarriesOk, EndsOk, TokenOk, PollsCarried, OutcomesOk, PollsOk, GuardsOk, RanOk;
    assert (exists q :: CachedUnder(s.pool, q, x)) <==> Usable(s.pool, x) by {
      if Usable(s.pool, x) { assert CachedUnder(s.pool, s.pool.heap[x].platform, x); }
    }
    assert (exists i :: CarriesContext(s.mux, i, x)) <==> Carried(s.mux.pending, s.pool.ctxCmd, x) by {
      if Carried(s.mux.pending, s.pool.ctxCmd, x) { assert CarriesContext(s.mux, s.pool.ctxCmd[x], x); }
    }
  }
}
