/** Replies, timers and the life cycle of the browser manager preserve the invariant. */
module CdpReplies {
  import opened CdpModel
  import opened CdpInvariants
  import opened CdpFreeing
  import opened CdpPreservation

  // ---- running a handler before or after erasing its entry ----

  lemma SendErase(s: Mgr, h: Handler, name: Method, session: string, arg: string, id: int)
    requires id < s.mux.cmdId
    ensures SendCommand(Erase(s, id), h, name, session, arg) == Erase(SendCommand(s, h, name, session, arg), id)
    ensures SendCommand(s, h, name, session, arg).mux.cmdId == s.mux.cmdId + 1
  {
    assert (s.mux.pending - {id})[s.mux.cmdId := h] == s.mux.pending[s.mux.cmdId := h] - {id};
  }

  lemma AskErase(s: Mgr, q: string, id: int)
    requires id < s.mux.cmdId
    ensures AskContext(Erase(s, id), q) == Erase(AskContext(s, q), id)
    ensures s.mux.cmdId <= AskContext(s, q).mux.cmdId
  {
    hide Issue;
    var c := |s.book.calls|;
    var s1 := s.(book := s.book.(calls := s.book.calls + [q], callCmd := s.book.callCmd[c := s.mux.cmdId]));
    SendErase(s1, Create(c, q), CreateTarget, "", "", id);
  }

  lemma StartCloseErase(s: Mgr, x: nat, id: int)
    requires id < s.mux.cmdId && x in s.pool.heap
    ensures StartClose(Erase(s, id), x) == Erase(StartClose(s, x), id)
    ensures s.mux.cmdId <= StartClose(s, x).mux.cmdId
  {
    hide Issue;
    var t := s.pool.heap[x];
    SendErase(SetCtx(s, x, t.(closed := true)), Close(x), CloseTarget, "", t.target, id);
  }

  lemma RunActsErase(s: Mgr, acts: seq<Act>, id: int)
    requires id < s.mux.cmdId
    ensures RunActs(Erase(s, id), acts) == Erase(RunActs(s, acts), id)
    ensures s.mux.cmdId <= RunActs(s, acts).mux.cmdId
    decreases acts, 0
  {
    if acts != [] {
      RunActErase(s, acts[0], id);
      RunActsErase(RunAct(s, acts[0]), acts[1..], id);
    }
  }

  lemma LocalErase(s: Mgr, x: nat, css: string, timeout: nat, id: int)
    ensures Dangle(Erase(s, id)) == Erase(Dangle(s), id)
    ensures StartWait(Erase(s, id), x, css, timeout) == Erase(StartWait(s, x, css, timeout), id)
    ensures RefuseWait(Erase(s, id), x, css, timeout) == Erase(RefuseWait(s, x, css, timeout), id)
    ensures s.mux.cmdId == StartWait(s, x, css, timeout).mux.cmdId == RefuseWait(s, x, css, timeout).mux.cmdId == Dangle(s).mux.cmdId
  {
  }

  lemma DeferErase(s: Mgr, x: nat, id: int)
    requires x in s.pool.heap
    ensures Defer(Erase(s, id), x) == Erase(Defer(s, x), id) && s.mux.cmdId == Defer(s, x).mux.cmdId
  {
  }

  lemma ErasedFields(s: Mgr, q: string, id: int)
    ensures Erase(s, id).pool == s.pool && (AnswersAtOnce(Erase(s, id), q) <==> AnswersAtOnce(s, q))
  {
  }

  lemma OnStopErase(s: Mgr, id: int)
    ensures OnStop(Erase(s, id)) == Erase(OnStop(s), id) && OnStop(s).mux == s.mux
  {
    hide ClearGuards;
  }

  lemma OnStartErase(s: Mgr, id: int)
    ensures OnStart(Erase(s, id)) == Erase(OnStart(s), id) && OnStart(s).mux.cmdId == s.mux.cmdId
  {
  }

  lemma EnterContextErase(s: Mgr, a: Act, id: int)
    requires (a.Operate? || a.PressKey? || a.CloseContext? || a.After? || a.WaitFor?) && a.ptr in s.pool.heap
    requires id < s.mux.cmdId && Erase(s, id).pool == s.pool
    ensures EnterContext(Erase(s, id), a) == Erase(EnterContext(s, a), id)
    ensures s.mux.cmdId <= EnterContext(s, a).mux.cmdId
  {
    hide SendCommand, StartClose, StartWait, RefuseWait, Defer, Erase;
    var t := s.pool.heap[a.ptr];
    match a
    case Operate(_, _, tag, _) => SendErase(s, User(tag), Other, t.session, "", id);
    case PressKey(x, tag, _) => SendErase(s, KeyDown(x, tag), DispatchKey, t.session, "keyDown", id);
    case CloseContext(x, _) => StartCloseErase(s, x, id);
    case After(x) => DeferErase(s, x, id);
    case WaitFor(x, css, timeout, _) => LocalErase(s, x, css, timeout, id);
  }

  lemma EnterErase(s: Mgr, a: Act, id: int)
    requires id < s.mux.cmdId
    ensures Enter(Erase(s, id), a) == Erase(Enter(s, a), id)
    ensures s.mux.cmdId <= Enter(s, a).mux.cmdId
  {
    ErasedFields(s, "", id);
    LocalErase(s, 0, "", 0, id);
    hide SendCommand, AskContext, EnterContext, RemoveContext, OnStart, OnStop, Dangle, Erase;
    match a
    case Send(tag) => SendErase(s, User(tag), Other, "", "", id);
    case GetContext(q, _) => AskErase(s, q, id);
    case RemoveFromCache(q) => InstallErase(s, q, 0, id);
    case StartManager => OnStartErase(s, id);
    case StopManager => OnStopErase(s, id);
    case _ =>
      if Usable(s.pool, a.ptr) { EnterContextErase(s, a, id); }
  }

  lemma RunActErase(s: Mgr, a: Act, id: int)
    requires id < s.mux.cmdId
    ensures RunAct(Erase(s, id), a) == Erase(RunAct(s, a), id)
    ensures s.mux.cmdId <= RunAct(s, a).mux.cmdId
    decreases a, 1
  {
    ErasedFields(s, if a.GetContext? then a.platform else "", id);
    EnterErase(s, a, id);
    hide Enter, Erase, AnswersAtOnce;
    if AtOnce(s, a) { RunActsErase(Enter(s, a), a.inner, id); }
  }

  lemma CheckErase(s: Mgr, w: nat, id: int)
    requires id < s.mux.cmdId
    ensures Check(Erase(s, id), w) == Erase(Check(s, w), id)
    ensures s.mux.cmdId <= Check(s, w).mux.cmdId
  {
    hide Issue;
    var p := s.poller;
    if w < |p.waits| && w < |p.polls| && p.waits[w].ctx in s.pool.heap {
      var s1 := s.(poller := p.(waitCmd := p.waitCmd[w := s.mux.cmdId], polls := p.polls[w := p.polls[w] + [s.clock]]));
      SendErase(s1, Poll(w), Evaluate, s.pool.heap[p.waits[w].ctx].session, p.waits[w].css, id);
    }
  }

  lemma AttachedErase(s: Mgr, c: nat, q: string, target: string, session: string, id: int)
    requires id < s.mux.cmdId
    ensures Attached(Erase(s, id), c, q, target, session) == Erase(Attached(s, c, q, target, session), id)
    ensures s.mux.cmdId <= Attached(s, c, q, target, session).mux.cmdId
  {
    hide Issue;
    var s0 := Allocate(s, Ctx(q, target, session, false, {}));
    var s1 := s0.(book := s.book.(callCmd := s.book.callCmd[c := s.mux.cmdId]));
    var k := AddScript(c, q, s.pool.nextPtr);
    var name := AddInitScript;
    SendErase(s1, k, name, session, "", id);
    SendErase(SendCommand(s1, k, name, session, ""), Noop, PageEnable, session, "", id);
  }

  lemma InstallErase(s: Mgr, q: string, x: nat, id: int)
    ensures RemoveContext(Erase(s, id), q) == Erase(RemoveContext(s, q), id)
    ensures InstallContext(Erase(s, id), q, x) == Erase(InstallContext(s, q, x), id)
    ensures s.mux.cmdId == RemoveContext(s, q).mux.cmdId == InstallContext(s, q, x).mux.cmdId
  {
    hide ClearGuards;
  }

  lemma ReactErase(s: Mgr, h: Handler, ok: bool, data: Payload, id: int)
    requires id < s.mux.cmdId
    ensures React(Erase(s, id), h, ok, data) == Erase(React(s, h, ok, data), id)
    ensures CallsUser(Erase(s, id), h, ok, data) == CallsUser(s, h, ok, data)
    ensures s.mux.cmdId <= React(s, h, ok, data).mux.cmdId
  {
    hide SendCommand, ClearGuards, Attached, Check, RemoveContext, InstallContext;
    match h
    case Create(c, q) =>
      var s1 := s.(book := s.book.(callCmd := s.book.callCmd[c := s.mux.cmdId]));
      SendErase(s1, Attach(c, q, data.text), AttachToTarget, "", data.text, id);
    case Attach(c, q, target) =>
      AttachedErase(s, c, q, target, data.text, id);
    case AddScript(c, q, x) =>
      InstallErase(s, q, x, id);
    case Close(x) =>
      if x in s.pool.heap { InstallErase(s, s.pool.heap[x].platform, x, id); }
    case Poll(w) =>
      CheckErase(s, w, id);
    case KeyDown(x, tag) =>
      if x in s.pool.heap { SendErase(s, User(tag), DispatchKey, s.pool.heap[x].session, "keyUp", id); }
    case _ =>
  }

  /** What on_ws_message would do had it erased the entry before running the handler. */
  function EraseFirst(s: Mgr, id: int, ok: bool, data: Payload, acts: seq<Act>): Mgr {
    if id !in s.mux.pending then s
    else Handle(Erase(Answer(s, id, ok), id), s.mux.pending[id], ok, data, acts)
  }

  /** Whatever the handler sends while it runs, erasing its entry afterwards gives the same state as
      erasing it first, because every new id is larger than every key of pending_. */
  lemma EraseOrderIrrelevant(s: Mgr, id: int, ok: bool, data: Payload, acts: seq<Act>)
    requires PendingOk(s.mux)
    ensures OnReply(s, id, ok, data, acts) == EraseFirst(s, id, ok, data, acts)
  {
    if id in s.mux.pending {
      var s1 := Answer(s, id, ok);
      var h := s.mux.pending[id];
      ReactErase(s1, h, ok, data, id);
      RunActsErase(React(s1, h, ok, data), if CallsUser(s1, h, ok, data) then acts else [], id);
    }
  }

  // ---- the stored handlers ----

  lemma EraseMux(m: Mux, id: int, ok: bool, m': Mux)
    requires PendingOk(m) && WireOk(m) && id in m.pending
    requires m' == m.(pending := m.pending - {id}, answered := m.answered + multiset{(id, ok)})
    ensures PendingOk(m') && WireOk(m')
  {
    forall i ensures Answers(m', i) == Answers(m, i) + if i == id then 1 else 0 {}
  }

  /** Answering a command that carries neither a call nor a wait. */
  lemma EraseNeutral(s: Mgr, id: int, ok: bool)
    requires Inv(s) && id in s.mux.pending
    requires !HasCall(s.mux.pending[id]) && !s.mux.pending[id].Poll?
    ensures Inv(Erase(Answer(s, id, ok), id))
  {
    hide CarriesOk, EndsOk, WireOk, PendingOk, ScriptsOk, OwnerOk, TokenOk, PollsCarried, FreedOk, CacheOk,
         OutcomesOk, PollsOk, GuardsOk, RanOk;
    var t := Erase(Answer(s, id, ok), id);
    var h := s.mux.pending[id];
    EraseMux(s.mux, id, ok, t.mux);
    CallsNeutral(s.mux.pending, t.mux.pending, s.book, id, h);
    ScriptsNeutral(s.mux.pending, t.mux.pending, s.pool, id, h);
    PollsNeutral(s.mux.pending, t.mux.pending, s.poller, id, h);
  }

  /** createTarget or attachToTarget fails. */
  lemma ReactFail(s: Mgr, id: int)
    requires Inv(s) && id in s.mux.pending
    requires s.mux.pending[id].Create? || s.mux.pending[id].Attach?
    ensures Inv(Fail(Erase(Answer(s, id, false), id), s.mux.pending[id].call))
  {
    hide CarriesOk, EndsOk, WireOk, PendingOk, ScriptsOk, OwnerOk, TokenOk, PollsCarried, FreedOk, CacheOk,
         OutcomesOk, PollsOk, GuardsOk, RanOk;
    var h := s.mux.pending[id];
    var t := Fail(Erase(Answer(s, id, false), id), h.call);
    EraseMux(s.mux, id, false, t.mux);
    CallsEnd(s.mux.pending, s.book, t.book, id);
    ScriptsNeutral(s.mux.pending, t.mux.pending, s.pool, id, h);
    PollsNeutral(s.mux.pending, t.mux.pending, s.poller, id, h);
  }

  lemma ReactCreated(s: Mgr, id: int, target: string)
    requires Inv(s) && id in s.mux.pending && s.mux.pending[id].Create?
    ensures Inv(React(Erase(Answer(s, id, true), id), s.mux.pending[id], true, Payload(target, false)))
  {
    hide CarriesOk, EndsOk, WireOk, PendingOk, ScriptsOk, OwnerOk, TokenOk, PollsCarried, FreedOk, CacheOk,
         OutcomesOk, PollsOk, GuardsOk, RanOk;
    var h := s.mux.pending[id];
    var k := Attach(h.call, h.platform, target);
    var s1 := Erase(Answer(s, id, true), id);
    var t := SendForCall(s1, h.call, k, AttachToTarget, "", target);
    EraseMux(s.mux, id, true, s1.mux);
    IssueOk(s.mux, k, Other, "", "");
    IssueOk(s1.mux, k, AttachToTarget, "", target);
    CallsAdvance(s.mux.pending, s.book, id, s.mux.cmdId, k, t.book);
    ScriptsNeutral(s.mux.pending, s1.mux.pending, s.pool, id, h);
    ScriptsNeutral(s1.mux.pending, t.mux.pending, s.pool, s.mux.cmdId, k);
    PollsNeutral(s.mux.pending, s1.mux.pending, s.poller, id, h);
    PollsNeutral(s1.mux.pending, t.mux.pending, s.poller, s.mux.cmdId, k);
  }

  /** A new context, carried by the add-script command that is issued next. */
  lemma PoolAllocated(pending: map<int, Handler>, p: Pool, next: int, c: nat, v: Ctx, p': Pool)
    requires FreedOk(p) && CacheOk(p) && ScriptsOk(pending, p) && OwnerOk(pending, p)
    requires next !in pending
    requires p' == p.(heap := p.heap[p.nextPtr := v], nextPtr := p.nextPtr + 1, ctxCmd := p.ctxCmd[p.nextPtr := next])
    ensures p.nextPtr !in p.heap
    ensures var pending' := pending[next := AddScript(c, v.platform, p.nextPtr)];
            FreedOk(p') && CacheOk(p') && ScriptsOk(pending', p') && OwnerOk(pending', p')
  {
    var x := p.nextPtr;
    var pending' := pending[next := AddScript(c, v.platform, x)];
    assert p.freed[x] + (if x in p.heap then 1 else 0) == 0;
    forall y: nat ensures Usable(p', y) <==> Usable(p, y) {}
    forall y: nat ensures Carried(pending', p'.ctxCmd, y) <==> Carried(pending, p.ctxCmd, y) || y == x {}
  }

  lemma AllocatedUnseen(p: Pool, t: Timers, w: Poller, v: Ctx, p': Pool)
    requires GuardsOk(p, t) && OutcomesOk(w, p) && v.guards == {}
    requires p'.heap == p.heap[p.nextPtr := v] && p'.nextPtr == p.nextPtr + 1
    ensures GuardsOk(p', t) && OutcomesOk(w, p')
  {
    forall i: nat ensures OutcomeOk(w, p', i) {
      assert OutcomeOk(w, p, i);
    }
    forall x: nat, g: nat | x in p'.heap ensures g in p'.heap[x].guards <==> g < |t.owner| && t.owner[g] == x {
      assert g < |t.owner| ==> t.owner[g] < p.nextPtr;
    }
  }

  lemma ReactAttached(s: Mgr, id: int, session: string)
    requires Inv(s) && id in s.mux.pending && s.mux.pending[id].Attach?
    ensures Inv(React(Erase(Answer(s, id, true), id), s.mux.pending[id], true, Payload(session, false)))
  {
    hide CarriesOk, EndsOk, WireOk, PendingOk, ScriptsOk, OwnerOk, TokenOk, PollsCarried, FreedOk, CacheOk,
         OutcomesOk, PollsOk, GuardsOk, RanOk;
    var h := s.mux.pending[id];
    var v := Ctx(h.platform, h.target, session, false, {});
    var k := AddScript(h.call, h.platform, s.pool.nextPtr);
    var name := AddInitScript;
    var s1 := Erase(Answer(s, id, true), id);
    var s2 := Allocate(s1, v);
    var t := SendForCall(s2, h.call, k, name, session, "");
    EraseMux(s.mux, id, true, s1.mux);
    IssueOk(s.mux, k, Other, "", "");
    IssueOk(s1.mux, k, name, session, "");
    CallsAdvance(s.mux.pending, s.book, id, s.mux.cmdId, k, t.book);
    ScriptsNeutral(s.mux.pending, s1.mux.pending, s.pool, id, h);
    PoolAllocated(s1.mux.pending, s.pool, s.mux.cmdId, h.call, v, s2.pool);
    AllocatedUnseen(s.pool, s.timers, s.poller, v, s2.pool);
    PollsNeutral(s.mux.pending, s1.mux.pending, s.poller, id, h);
    PollsNeutral(s1.mux.pending, t.mux.pending, s.poller, s.mux.cmdId, k);
    SendNeutral(t, Noop, PageEnable, session, "");
  }

  /** An answered add-script entry hands its context to the cache. */
  lemma PoolCached(pending: map<int, Handler>, p: Pool, id: int, p': Pool)
    requires FreedOk(p) && CacheOk(p) && ScriptsOk(pending, p) && OwnerOk(pending, p)
    requires id in pending && pending[id].AddScript? && pending[id].platform !in p.contexts
    requires p' == p.(contexts := p.contexts[pending[id].platform := pending[id].ctx])
    ensures FreedOk(p') && CacheOk(p') && ScriptsOk(pending - {id}, p') && OwnerOk(pending - {id}, p')
  {
    var x := pending[id].ctx;
    forall y: nat | y in p.heap ensures Usable(p', y) <==> Usable(p, y) || y == x {}
    forall y: nat ensures Carried(pending - {id}, p.ctxCmd, y) <==> Carried(pending, p.ctxCmd, y) && y != x {}
  }

  lemma ReactScripted(s: Mgr, id: int)
    requires Inv(s) && id in s.mux.pending && s.mux.pending[id].AddScript?
    ensures var h := s.mux.pending[id];
            Inv(Deliver(InstallContext(Erase(Answer(s, id, true), id), h.platform, h.ctx), h.call, h.ctx))
  {
    hide CarriesOk, EndsOk, WireOk, PendingOk, ScriptsOk, OwnerOk, TokenOk, PollsCarried, FreedOk, CacheOk,
         OutcomesOk, PollsOk, GuardsOk, RanOk, ClearGuards;
    var h := s.mux.pending[id];
    var r := RemoveContext(s, h.platform);
    var t := Deliver(InstallContext(Erase(Answer(s, id, true), id), h.platform, h.ctx), h.call, h.ctx);
    RemoveContextInv(s, h.platform);
    EraseMux(r.mux, id, true, t.mux);
    CallsEnd(r.mux.pending, r.book, t.book, id);
    PoolCached(r.mux.pending, r.pool, id, t.pool);
    PollsNeutral(r.mux.pending, t.mux.pending, r.poller, id, h);
    SameHeap(r.poller, r.pool, r.timers, t.pool);
  }

  lemma SameHeap(w: Poller, p: Pool, t: Timers, p': Pool)
    requires OutcomesOk(w, p) && GuardsOk(p, t) && p'.heap == p.heap && p'.nextPtr == p.nextPtr
    ensures OutcomesOk(w, p') && GuardsOk(p', t)
  {
    OutcomesFreed(w, p, {}, p');
  }

  /** The add-script command fails: its context is deleted. */
  lemma PoolDiscarded(pending: map<int, Handler>, p: Pool, id: int, p': Pool)
    requires FreedOk(p) && CacheOk(p) && ScriptsOk(pending, p) && OwnerOk(pending, p)
    requires id in pending && pending[id].AddScript?
    requires p' == p.(heap := p.heap - {pending[id].ctx}, freed := p.freed + multiset{pending[id].ctx})
    ensures FreedOk(p') && CacheOk(p') && ScriptsOk(pending - {id}, p') && OwnerOk(pending - {id}, p')
  {
    var x := pending[id].ctx;
    assert Carried(pending, p.ctxCmd, x) && !Usable(p, x);
    forall y: nat | y in p'.heap ensures Usable(p', y) <==> Usable(p, y) {}
    forall y: nat | y in p'.heap ensures Carried(pending - {id}, p.ctxCmd, y) <==> Carried(pending, p.ctxCmd, y) {}
  }

  lemma ReactDiscarded(s: Mgr, id: int)
    requires Inv(s) && id in s.mux.pending && s.mux.pending[id].AddScript?
    ensures var h := s.mux.pending[id];
            Inv(Silence(Destroy(Erase(Answer(s, id, false), id), h.ctx), h.call))
  {
    hide CarriesOk, EndsOk, WireOk, PendingOk, ScriptsOk, OwnerOk, TokenOk, PollsCarried, FreedOk, CacheOk,
         OutcomesOk, PollsOk, GuardsOk, RanOk, ClearGuards;
    var h := s.mux.pending[id];
    var t := Silence(Destroy(Erase(Answer(s, id, false), id), h.ctx), h.call);
    EraseMux(s.mux, id, false, t.mux);
    CallsEnd(s.mux.pending, s.book, t.book, id);
    PoolDiscarded(s.mux.pending, s.pool, id, t.pool);
    GuardsCleared(s.pool, s.timers, {h.ctx}, t.pool);
    OutcomesFreed(s.poller, s.pool, {h.ctx}, t.pool);
    RanCleared(s.timers, s.pool.heap, {h.ctx});
    PollsNeutral(s.mux.pending, t.mux.pending, s.poller, id, h);
  }

  lemma ReactClosed(s: Mgr, id: int)
    requires Inv(s) && id in s.mux.pending && s.mux.pending[id].Close?
    ensures Inv(React(Erase(Answer(s, id, true), id), s.mux.pending[id], true, Payload("", false)))
  {
    EraseNeutral(s, id, true);
    var s1 := Erase(Answer(s, id, true), id);
    var x := s.mux.pending[id].ctx;
    hide Inv;
    if x in s1.pool.heap {
      RemoveContextInv(s1, s1.pool.heap[x].platform);
    } else {
      DangleInv(s1);
    }
  }

  // ---- polling ----

  /** Wait w holds its token in hand: neither posted, nor outstanding, nor done. */
  ghost predicate TokenInHand(pending: map<int, Handler>, p: Poller, w: nat) {
    && w < |p.waits| && !p.waits[w].done && p.posted[w] == 0 && !Outstanding(pending, p.waitCmd, w)
    && forall v: nat :: v != w ==> p.posted[v] + (if Outstanding(pending, p.waitCmd, v) then 1 else 0) + Done(p, v)
                                   == if v < |p.waits| then 1 else 0
  }

  /** The invariant but for wait w, whose evaluates so far all lie before now. */
  ghost predicate Polling(s: Mgr, w: nat) {
    && PendingOk(s.mux) && WireOk(s.mux)
    && CarriesOk(s.mux.pending, s.book) && EndsOk(s.mux.pending, s.book)
    && FreedOk(s.pool) && CacheOk(s.pool) && ScriptsOk(s.mux.pending, s.pool) && OwnerOk(s.mux.pending, s.pool)
    && PollsCarried(s.mux.pending, s.poller.waitCmd) && TokenInHand(s.mux.pending, s.poller, w)
    && OutcomesOk(s.poller, s.pool) && PollsOk(s.poller, s.clock)
    && GuardsOk(s.pool, s.timers) && RanOk(s.timers)
    && forall k :: 0 <= k < |s.poller.polls[w]| ==> s.poller.polls[w][k] < s.clock || s.poller.stalled
  }

  /** The wait ends: on one side, or on none if its context was closed or freed. */
  lemma WaitDone(pending: map<int, Handler>, p: Poller, pool: Pool, clock: nat, w: nat, p': Poller)
    requires TokenInHand(pending, p, w) && OutcomesOk(p, pool) && PollsOk(p, clock)
    requires p' == SetDone(p, w).(found := p'.found, timedOut := p'.timedOut)
    requires || (p'.found == p.found + multiset{w} && p'.timedOut == p.timedOut)
             || (p'.found == p.found && p'.timedOut == p.timedOut + multiset{w})
             || (p'.found == p.found && p'.timedOut == p.timedOut
                 && (p.waits[w].ctx !in pool.heap || pool.heap[p.waits[w].ctx].closed))
    ensures TokenOk(pending, p') && OutcomesOk(p', pool) && PollsOk(p', clock)
  {
    assert OutcomeOk(p, pool, w);
    forall v: nat ensures OutcomeOk(p', pool, v) {
      assert OutcomeOk(p, pool, v);
    }
    forall v: nat ensures Done(p', v) == if v == w then 1 else Done(p, v) {}
  }

  lemma FindInv(s: Mgr, w: nat)
    requires Polling(s, w)
    ensures Inv(Find(s, w))
  {
    hide CarriesOk, EndsOk, WireOk, PendingOk, ScriptsOk, OwnerOk, PollsCarried, FreedOk, CacheOk, OutcomesOk,
         PollsOk, GuardsOk, RanOk, TokenOk;
    WaitDone(s.mux.pending, s.poller, s.pool, s.clock, w, Find(s, w).poller);
  }

  /** The wait issues another evaluate. */
  lemma PollAdded(pending: map<int, Handler>, p: Poller, pool: Pool, clock: nat, next: int, w: nat, p': Poller)
    requires PollsCarried(pending, p.waitCmd) && TokenInHand(pending, p, w) && OutcomesOk(p, pool) && PollsOk(p, clock)
    requires forall k :: 0 <= k < |p.polls[w]| ==> p.polls[w][k] < clock || p.stalled
    requires next !in pending && !Expired(p.waits[w], clock)
    requires p' == p.(waitCmd := p.waitCmd[w := next], polls := p.polls[w := p.polls[w] + [clock]])
    ensures PollsCarried(pending[next := Poll(w)], p'.waitCmd) && TokenOk(pending[next := Poll(w)], p')
    ensures OutcomesOk(p', pool) && PollsOk(p', clock)
  {
    var pending' := pending[next := Poll(w)];
    forall v: nat ensures Outstanding(pending', p'.waitCmd, v) <==> Outstanding(pending, p.waitCmd, v) || v == w {}
    forall v: nat ensures Done(p', v) == Done(p, v) {}
    forall v: nat ensures OutcomeOk(p', pool, v) {
      assert OutcomeOk(p, pool, v);
    }
    var ts := p.polls[w];
    assert PollTimes(p.waits[w], p.posted[w] > 0, ts, clock, p.stalled);
    assert PollTimes(p.waits[w], p.posted[w] > 0, ts + [clock], clock, p.stalled);
  }

  lemma IssuePollInv(s: Mgr, w: nat, session: string)
    requires Polling(s, w) && w < |s.poller.polls| && !Expired(s.poller.waits[w], s.clock)
    ensures Inv(IssuePoll(s, w, session))
  {
    hide CarriesOk, EndsOk, WireOk, PendingOk, ScriptsOk, OwnerOk, PollsCarried, FreedOk, CacheOk, OutcomesOk,
         PollsOk, GuardsOk, RanOk, TokenOk;
    var t := IssuePoll(s, w, session);
    IssueOk(s.mux, Poll(w), Evaluate, session, s.poller.waits[w].css);
    CallsNeutral(s.mux.pending, t.mux.pending, s.book, s.mux.cmdId, Poll(w));
    ScriptsNeutral(s.mux.pending, t.mux.pending, s.pool, s.mux.cmdId, Poll(w));
    PollAdded(s.mux.pending, s.poller, s.pool, s.clock, s.mux.cmdId, w, t.poller);
  }

  lemma CheckInv(s: Mgr, w: nat)
    requires Polling(s, w)
    ensures Inv(Check(s, w))
  {
    hide CarriesOk, EndsOk, WireOk, PendingOk, ScriptsOk, OwnerOk, PollsCarried, FreedOk, CacheOk, OutcomesOk,
         GuardsOk, RanOk, TokenOk;
    var t := s.poller.waits[w];
    if t.ctx in s.pool.heap && !s.pool.heap[t.ctx].closed && !Expired(t, s.clock) {
      IssuePollInv(s, w, s.pool.heap[t.ctx].session);
    } else {
      WaitDone(s.mux.pending, s.poller, s.pool, s.clock, w, Check(s, w).poller);
    }
  }

  /** Answering an evaluate puts the token of its wait in hand. */
  lemma TokenTaken(pending: map<int, Handler>, p: Poller, id: int)
    requires PollsCarried(pending, p.waitCmd) && TokenOk(pending, p) && id in pending && pending[id].Poll?
    ensures PollsCarried(pending - {id}, p.waitCmd) && TokenInHand(pending - {id}, p, pending[id].wait)
  {
    var w := pending[id].wait;
    assert Outstanding(pending, p.waitCmd, w);
    forall v: nat ensures Outstanding(pending - {id}, p.waitCmd, v) <==> Outstanding(pending, p.waitCmd, v) && v != w {}
  }

  /** The invariant after some time passed; with `reply`, all evaluates lie before now. */
  ghost predicate Later(s: Mgr) {
    && Inv(s)
    && forall w, k :: 0 <= w < |s.poller.polls| && 0 <= k < |s.poller.polls[w]| ==>
         s.poller.polls[w][k] < s.clock || s.poller.stalled
  }

  lemma TickInv(s: Mgr, dt: nat, reply: bool)
    requires Inv(s)
    ensures Inv(Tick(s, dt, reply))
    ensures reply ==> Later(Tick(s, dt, reply))
  {
    hide CarriesOk, EndsOk, WireOk, PendingOk, ScriptsOk, OwnerOk, PollsCarried, FreedOk, CacheOk, GuardsOk, RanOk;
    var t := Tick(s, dt, reply);
    assert forall w: nat :: Outstanding(t.mux.pending, t.poller.waitCmd, w) <==> Outstanding(s.mux.pending, s.poller.waitCmd, w);
    forall w: nat ensures OutcomeOk(t.poller, t.pool, w) {
      assert OutcomeOk(s.poller, s.pool, w);
    }
    forall w | 0 <= w < |s.poller.waits|
      ensures PollTimes(t.poller.waits[w], t.poller.posted[w] > 0, t.poller.polls[w], t.clock, t.poller.stalled)
    {
      assert PollTimes(s.poller.waits[w], s.poller.posted[w] > 0, s.poller.polls[w], s.clock, s.poller.stalled);
    }
  }

  lemma ReactPolled(s: Mgr, id: int, ok: bool, data: Payload)
    requires Later(s) && id in s.mux.pending && s.mux.pending[id].Poll?
    ensures Inv(React(Erase(Answer(s, id, ok), id), s.mux.pending[id], ok, data))
    ensures s.mux.pending[id].wait < |s.poller.waits| && !s.poller.waits[s.mux.pending[id].wait].done
  {
    hide CarriesOk, EndsOk, WireOk, PendingOk, ScriptsOk, OwnerOk, TokenOk, PollsCarried, FreedOk, CacheOk,
         OutcomesOk, GuardsOk, RanOk, Check, Find;
    var h := s.mux.pending[id];
    var t := Erase(Answer(s, id, ok), id);
    EraseMux(s.mux, id, ok, t.mux);
    CallsNeutral(s.mux.pending, t.mux.pending, s.book, id, h);
    ScriptsNeutral(s.mux.pending, t.mux.pending, s.pool, id, h);
    TokenTaken(s.mux.pending, s.poller, id);
    assert Polling(t, h.wait);
    if ok && data.found {
      FindInv(t, h.wait);
    } else {
      CheckInv(t, h.wait);
    }
  }

  lemma OnReplyInv(s: Mgr, id: int, ok: bool, data: Payload, acts: seq<Act>)
    requires Later(s)
    ensures Inv(OnReply(s, id, ok, data, acts))
  {
    if id in s.mux.pending {
      EraseOrderIrrelevant(s, id, ok, data, acts);
      ReactInv(s, id, ok, data);
      hide Inv, React, CallsUser;
      var t := Erase(Answer(s, id, ok), id);
      RunActsInv(React(t, s.mux.pending[id], ok, data), if CallsUser(t, s.mux.pending[id], ok, data) then acts else []);
    }
  }

  lemma ReactInv(s: Mgr, id: int, ok: bool, data: Payload)
    requires Later(s) && id in s.mux.pending
    ensures Inv(React(Erase(Answer(s, id, ok), id), s.mux.pending[id], ok, data))
  {
    hide Inv, Attached, SendForCall, InstallContext, Destroy;
    var h := s.mux.pending[id];
    match h
    case Create(c, q) =>
      if ok { ReactCreated(s, id, data.text); } else { ReactFail(s, id); }
    case Attach(c, q, target) =>
      if ok { ReactAttached(s, id, data.text); } else { ReactFail(s, id); }
    case AddScript(c, q, x) =>
      if ok { ReactScripted(s, id); } else { ReactDiscarded(s, id); }
    case Close(x) =>
      if ok { ReactClosed(s, id); } else { EraseNeutral(s, id, ok); }
    case Poll(w) =>
      ReactPolled(s, id, ok, data);
    case KeyDown(x, tag) =>
      var t := Erase(Answer(s, id, ok), id);
      EraseNeutral(s, id, ok);
      DangleInv(t);
      if x in t.pool.heap { SendNeutral(t, User(tag), DispatchKey, t.pool.heap[x].session, "keyUp"); }
    case _ =>
      EraseNeutral(s, id, ok);
  }

  // ---- posted checks and one-shot timers ----

  lemma OnCheckedInv(s: Mgr, w: nat, acts: seq<Act>)
    requires Inv(s)
    ensures Inv(OnChecked(s, w, acts))
  {
    if w in s.poller.posted {
      UnpostPolling(s, w);
      CheckInv(Unpost(s, w), w);
      hide Inv;
      RunActsInv(Check(Unpost(s, w), w), if CheckTimesOut(s, w) then acts else []);
    }
  }

  lemma UnpostPolling(s: Mgr, w: nat)
    requires Inv(s) && w in s.poller.posted
    ensures Polling(Unpost(s, w), w)
  {
    hide CarriesOk, EndsOk, WireOk, PendingOk, ScriptsOk, OwnerOk, PollsCarried, FreedOk, CacheOk, GuardsOk, RanOk;
    var t := Unpost(s, w);
    assert PollTimes(s.poller.waits[w], s.poller.posted[w] > 0, s.poller.polls[w], s.clock, s.poller.stalled);
    forall v: nat ensures OutcomeOk(t.poller, t.pool, v) {
      assert OutcomeOk(s.poller, s.pool, v);
    }
    forall v | 0 <= v < |s.poller.waits|
      ensures PollTimes(t.poller.waits[v], t.poller.posted[v] > 0, t.poller.polls[v], t.clock, t.poller.stalled)
    {
      assert PollTimes(s.poller.waits[v], s.poller.posted[v] > 0, s.poller.polls[v], s.clock, s.poller.stalled);
    }
  }

  lemma DisarmInv(s: Mgr, g: nat)
    requires Inv(s) && g in s.timers.armed
    ensures Inv(Disarm(s, g, FiresCallback(s, g)))
  {
    hide CarriesOk, EndsOk, WireOk, PendingOk, ScriptsOk, OwnerOk, TokenOk, PollsCarried, FreedOk, CacheOk,
         OutcomesOk, PollsOk;
    var t := Disarm(s, g, FiresCallback(s, g));
    assert GuardsOk(t.pool, t.timers);
  }

  lemma OnFiredInv(s: Mgr, g: nat, acts: seq<Act>)
    requires Inv(s)
    ensures Inv(OnFired(s, g, acts))
  {
    if g in s.timers.armed {
      DisarmInv(s, g);
      hide Inv;
      RunActsInv(Disarm(s, g, FiresCallback(s, g)), if FiresCallback(s, g) then acts else []);
    }
  }

  // ---- life cycle ----

  lemma OpenInv(s: Mgr)
    requires Inv(s)
    ensures Inv(s.(mux := Open(s.mux)))
  {
    hide CarriesOk, EndsOk, WireOk, PendingOk, ScriptsOk, OwnerOk, TokenOk, PollsCarried, FreedOk, CacheOk,
         OutcomesOk, PollsOk, GuardsOk, RanOk;
    var m' := Open(s.mux);
    OpenMux(s.mux);
    CallsNeutral(s.mux.pending, m'.pending, s.book, s.mux.cmdId, Noop);
    ScriptsNeutral(s.mux.pending, m'.pending, s.pool, s.mux.cmdId, Noop);
    PollsNeutral(s.mux.pending, m'.pending, s.poller, s.mux.cmdId, Noop);
  }

  lemma OpenMux(m: Mux)
    requires PendingOk(m) && WireOk(m)
    ensures m.cmdId !in m.pending
    ensures PendingOk(Open(m)) && WireOk(Open(m))
  {
    var msg := Msg(m.cmdId, PageEnable, "", "");
    var m' := Open(m);
    assert m'.wire + m'.queue == m.wire + m.queue + [msg];
    WireSnoc(m, msg, m');
    forall i ensures Answers(m', i) == Answers(m, i) {}
  }

  // ---- all runs ----

  lemma StepInv(s: Mgr, e: Event)
    requires Inv(s)
    ensures Inv(Step(s, e))
  {
    match e
    case Call(acts) => RunActsInv(s, acts);
    case Reply(id, ok, data, dt, acts) =>
      TickInv(s, dt, true);
      OnReplyInv(Tick(s, dt, true), id, ok, data, acts);
    case Opened => OpenInv(s);
    case Start => OnStartInv(s);
    case Launched(good) =>
    case Stop => OnStopInv(s);
    case Checked(w, dt, acts) =>
      TickInv(s, dt, false);
      OnCheckedInv(Tick(s, dt, false), w, acts);
    case Fired(g, acts) => OnFiredInv(s, g, acts);
  }

  lemma RunInv(s: Mgr, es: seq<Event>)
    requires Inv(s)
    ensures Inv(Run(s, es))
    decreases es
  {
    if es != [] {
      StepInv(s, es[0]);
      RunInv(Step(s, es[0]), es[1..]);
    }
  }

  lemma InitInv()
    ensures Inv(Init())
  {
    forall w: nat ensures OutcomeOk(Init().poller, Init().pool, w) {}
  }
}
