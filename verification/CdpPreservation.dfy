/** What a user callback does to the browser manager preserves the invariant. */
module CdpPreservation {
  import opened CdpModel
  import opened CdpFreeing
  import opened CdpInvariants

  // ---- the multiplexer and the wire ----

  lemma IdsSnoc(ms: seq<Msg>, m: Msg)
    ensures Ids(ms + [m]) == Ids(ms) + {m.id}
  {
    var t := ms + [m];
    forall i | i in Ids(ms) + {m.id} ensures i in Ids(t) {
      if i == m.id {
        assert t[|ms|].id == i;
      } else {
        var k :| 0 <= k < |ms| && ms[k].id == i;
        assert t[k].id == i;
      }
    }
  }

  lemma WireSnoc(m: Mux, msg: Msg, m': Mux)
    requires PendingOk(m) && WireOk(m) && msg.id == m.cmdId
    requires m'.wire + m'.queue == m.wire + m.queue + [msg]
    requires m'.dropped == m.dropped && m'.cmdId == m.cmdId + 1 && (m'.wsReady ==> m'.queue == [])
    ensures WireOk(m')
  {
    var all := m.wire + m.queue;
    IdsSnoc(all, msg);
    forall i | 0 <= i < |all| ensures all[i].id < msg.id {
      assert all[i].id in Ids(all);
    }
  }

  lemma IssueOk(m: Mux, h: Handler, name: Method, session: string, arg: string)
    requires PendingOk(m) && WireOk(m)
    ensures m.cmdId !in m.pending
    ensures PendingOk(Issue(m, h, name, session, arg)) && WireOk(Issue(m, h, name, session, arg))
  {
    var msg := Msg(m.cmdId, name, session, arg);
    var m' := Issue(m, h, name, session, arg);
    assert m'.wire + m'.queue == m.wire + m.queue + [msg];
    WireSnoc(m, msg, m');
    forall i ensures Answers(m', i) == Answers(m, i) {}
  }

  // ---- entries of pending_ that matter to one part only ----

  /** The two maps differ by the entry (id, h), which is in one of them. */
  ghost predicate OneApart(pending: map<int, Handler>, pending': map<int, Handler>, id: int, h: Handler) {
    || (id !in pending && pending' == pending[id := h])
    || (id in pending && pending[id] == h && pending' == pending - {id})
  }

  lemma CallsNeutral(pending: map<int, Handler>, pending': map<int, Handler>, b: Book, id: int, h: Handler)
    requires CarriesOk(pending, b) && EndsOk(pending, b)
    requires !HasCall(h) && OneApart(pending, pending', id, h)
    ensures CarriesOk(pending', b) && EndsOk(pending', b)
  {
    forall c: nat ensures InFlight(pending', b.callCmd, c) <==> InFlight(pending, b.callCmd, c) {}
  }

  lemma ScriptsNeutral(pending: map<int, Handler>, pending': map<int, Handler>, p: Pool, id: int, h: Handler)
    requires ScriptsOk(pending, p) && OwnerOk(pending, p)
    requires !h.AddScript? && OneApart(pending, pending', id, h)
    ensures ScriptsOk(pending', p) && OwnerOk(pending', p)
  {
    forall x: nat ensures Carried(pending', p.ctxCmd, x) <==> Carried(pending, p.ctxCmd, x) {}
  }

  lemma PollsNeutral(pending: map<int, Handler>, pending': map<int, Handler>, p: Poller, id: int, h: Handler)
    requires PollsCarried(pending, p.waitCmd) && TokenOk(pending, p)
    requires !h.Poll? && OneApart(pending, pending', id, h)
    ensures PollsCarried(pending', p.waitCmd) && TokenOk(pending', p)
  {
    forall w: nat ensures Outstanding(pending', p.waitCmd, w) <==> Outstanding(pending, p.waitCmd, w) {}
  }

  // ---- calls ----

  /** A call passes from an answered command to the next one. */
  lemma CallsAdvance(pending: map<int, Handler>, b: Book, id: int, next: int, h: Handler, b': Book)
    requires CarriesOk(pending, b) && EndsOk(pending, b)
    requires id in pending && HasCall(pending[id]) && next !in pending
    requires HasCall(h) && h.call == pending[id].call && h.platform == pending[id].platform
    requires b' == b.(callCmd := b.callCmd[h.call := next])
    ensures CarriesOk((pending - {id})[next := h], b') && EndsOk((pending - {id})[next := h], b')
  {
    var pending' := (pending - {id})[next := h];
    forall c: nat ensures InFlight(pending', b'.callCmd, c) <==> InFlight(pending, b.callCmd, c) {}
    forall c: nat ensures Ends(b', c) == Ends(b, c) {}
  }

  /** The command that carries a call is answered and the call ends. */
  lemma CallsEnd(pending: map<int, Handler>, b: Book, b': Book, id: int)
    requires CarriesOk(pending, b) && EndsOk(pending, b)
    requires id in pending && HasCall(pending[id])
    requires b'.calls == b.calls && b'.callCmd == b.callCmd
    requires forall c: nat :: Ends(b', c) == Ends(b, c) + if c == pending[id].call then 1 else 0
    ensures CarriesOk(pending - {id}, b') && EndsOk(pending - {id}, b')
  {
    forall c: nat ensures InFlight(pending - {id}, b.callCmd, c) <==> InFlight(pending, b.callCmd, c) && c != pending[id].call {}
  }

  lemma CallsAtOnce(pending: map<int, Handler>, b: Book, b': Book, q: string)
    requires CarriesOk(pending, b) && EndsOk(pending, b)
    requires b'.calls == b.calls + [q] && b'.callCmd == b.callCmd
    requires forall c: nat :: Ends(b', c) == Ends(b, c) + if c == |b.calls| then 1 else 0
    ensures CarriesOk(pending, b') && EndsOk(pending, b')
  {
    assert !InFlight(pending, b.callCmd, |b.calls|);
  }

  lemma CallsBegin(pending: map<int, Handler>, b: Book, b': Book, q: string, next: int)
    requires CarriesOk(pending, b) && EndsOk(pending, b) && next !in pending
    requires b' == b.(calls := b.calls + [q], callCmd := b.callCmd[|b.calls| := next])
    ensures CarriesOk(pending[next := Create(|b.calls|, q)], b') && EndsOk(pending[next := Create(|b.calls|, q)], b')
  {
    var c := |b.calls|;
    var pending' := pending[next := Create(c, q)];
    assert !InFlight(pending, b.callCmd, c);
    forall d: nat ensures InFlight(pending', b'.callCmd, d) <==> InFlight(pending, b.callCmd, d) || d == c {}
    forall d: nat ensures Ends(b', d) == Ends(b, d) {}
  }

  // ---- what user callbacks do ----

  lemma SendNeutral(s: Mgr, h: Handler, name: Method, session: string, arg: string)
    requires Inv(s)
    requires !HasCall(h) && !h.Poll?
    ensures Inv(SendCommand(s, h, name, session, arg))
  {
    hide CarriesOk, EndsOk, WireOk, PendingOk, ScriptsOk, OwnerOk, TokenOk, PollsCarried;
    var pending' := s.mux.pending[s.mux.cmdId := h];
    IssueOk(s.mux, h, name, session, arg);
    CallsNeutral(s.mux.pending, pending', s.book, s.mux.cmdId, h);
    ScriptsNeutral(s.mux.pending, pending', s.pool, s.mux.cmdId, h);
    PollsNeutral(s.mux.pending, pending', s.poller, s.mux.cmdId, h);
  }

  lemma AskContextInv(s: Mgr, q: string)
    requires Inv(s)
    ensures Inv(AskContext(s, q))
  {
    hide CarriesOk, EndsOk, WireOk, PendingOk, ScriptsOk, OwnerOk, TokenOk, PollsCarried, FreedOk, CacheOk,
         OutcomesOk, PollsOk, GuardsOk, RanOk;
    var t := AskContext(s, q);
    if AnswersAtOnce(s, q) {
      CallsAtOnce(s.mux.pending, s.book, t.book, q);
    } else {
      var h := Create(|s.book.calls|, q);
      IssueOk(s.mux, h, CreateTarget, "", "");
      CallsBegin(s.mux.pending, s.book, t.book, q, s.mux.cmdId);
      ScriptsNeutral(s.mux.pending, t.mux.pending, s.pool, s.mux.cmdId, h);
      PollsNeutral(s.mux.pending, t.mux.pending, s.poller, s.mux.cmdId, h);
    }
  }

  /** Replacing a live context by one of the same platform, closed if it was. */
  lemma TouchContext(s: Mgr, x: nat, t: Ctx, pool': Pool)
    requires Inv(s) && x in s.pool.heap
    requires t.platform == s.pool.heap[x].platform && (s.pool.heap[x].closed ==> t.closed)
    requires pool' == s.pool.(heap := s.pool.heap[x := t])
    ensures x < s.pool.nextPtr
    ensures FreedOk(pool') && CacheOk(pool') && ScriptsOk(s.mux.pending, pool') && OwnerOk(s.mux.pending, pool')
    ensures OutcomesOk(s.poller, pool')
  {
    hide CarriesOk, EndsOk, WireOk, PendingOk, TokenOk, PollsCarried, PollsOk, GuardsOk, RanOk, Carried;
    assert s.pool.freed[x] >= 0;
    forall y: nat ensures Usable(pool', y) <==> Usable(s.pool, y) {}
    forall w: nat ensures OutcomeOk(s.poller, pool', w) {
      assert OutcomeOk(s.poller, s.pool, w);
    }
  }

  lemma StartCloseInv(s: Mgr, x: nat)
    requires Inv(s) && x in s.pool.heap
    ensures Inv(StartClose(s, x))
  {
    hide CarriesOk, EndsOk, WireOk, PendingOk, ScriptsOk, OwnerOk, TokenOk, PollsCarried, FreedOk, CacheOk,
         OutcomesOk, PollsOk, RanOk;
    var t := s.pool.heap[x].(closed := true);
    var s1 := SetCtx(s, x, t);
    TouchContext(s, x, t, s1.pool);
    assert GuardsOk(s1.pool, s1.timers);
    SendNeutral(s1, Close(x), CloseTarget, "", t.target);
  }

  lemma GuardAdded(p: Pool, t: Timers, x: nat, p': Pool, t': Timers)
    requires GuardsOk(p, t) && RanOk(t) && x in p.heap && x < p.nextPtr
    requires p' == p.(heap := p.heap[x := p.heap[x].(guards := p.heap[x].guards + {|t.alive|})])
    requires t' == t.(alive := t.alive + [true], armed := t.armed + {|t.alive|}, owner := t.owner + [x])
    ensures GuardsOk(p', t') && RanOk(t')
  {
  }

  lemma DeferInv(s: Mgr, x: nat)
    requires Inv(s) && x in s.pool.heap
    ensures Inv(Defer(s, x))
  {
    hide CarriesOk, EndsOk, WireOk, PendingOk, ScriptsOk, OwnerOk, TokenOk, PollsCarried, FreedOk, CacheOk,
         OutcomesOk, PollsOk, GuardsOk, RanOk;
    var g := |s.timers.alive|;
    var t := Defer(s, x);
    TouchContext(s, x, s.pool.heap[x].(guards := s.pool.heap[x].guards + {g}), t.pool);
    GuardAdded(s.pool, s.timers, x, t.pool, t.timers);
  }

  lemma TokenAdded(pending: map<int, Handler>, p: Poller, t: Wait, p': Poller)
    requires TokenOk(pending, p)
    requires p'.waits == p.waits + [t] && p'.waitCmd == p.waitCmd
    requires p'.posted == if t.done then p.posted else p.posted + multiset{|p.waits|}
    ensures TokenOk(pending, p')
  {
    hide Outstanding;
    var w := |p.waits|;
    assert p.posted[w] == 0 && !Outstanding(pending, p.waitCmd, w);
    forall v: nat ensures Done(p', v) == if v == w then (if t.done then 1 else 0) else Done(p, v) {}
  }

  lemma OutcomeAdded(p: Poller, pool: Pool, t: Wait, p': Poller)
    requires OutcomesOk(p, pool) && t.ctx < pool.nextPtr
    requires p'.waits == p.waits + [t] && p'.found == p.found
    requires p'.timedOut == if t.done then p.timedOut + multiset{|p.waits|} else p.timedOut
    ensures OutcomesOk(p', pool)
  {
    forall v: nat ensures OutcomeOk(p', pool, v) {
      assert OutcomeOk(p, pool, v);
    }
  }

  lemma PollTimesAdded(p: Poller, clock: nat, t: Wait, p': Poller)
    requires PollsOk(p, clock) && t.start == clock
    requires p'.waits == p.waits + [t] && p'.polls == p.polls + [[]] && p'.stalled == p.stalled
    requires p'.posted == if t.done then p.posted else p.posted + multiset{|p.waits|}
    ensures PollsOk(p', clock)
  {
    forall v | 0 <= v < |p.waits|
      ensures PollTimes(p'.waits[v], p'.posted[v] > 0, p'.polls[v], clock, p'.stalled)
    {
      assert PollTimes(p.waits[v], p.posted[v] > 0, p.polls[v], clock, p.stalled);
    }
  }

  lemma NewWaitInv(s: Mgr, x: nat, css: string, timeout: nat, t: Mgr)
    requires Inv(s) && x in s.pool.heap
    requires t == StartWait(s, x, css, timeout) || t == RefuseWait(s, x, css, timeout)
    ensures Inv(t)
  {
    hide CarriesOk, EndsOk, WireOk, PendingOk, ScriptsOk, OwnerOk, TokenOk, PollsCarried, CacheOk, OutcomesOk,
         PollsOk, GuardsOk, RanOk;
    assert s.pool.freed[x] >= 0;
    var v := t.poller.waits[|s.poller.waits|];
    TokenAdded(s.mux.pending, s.poller, v, t.poller);
    OutcomeAdded(s.poller, s.pool, v, t.poller);
    PollTimesAdded(s.poller, s.clock, v, t.poller);
  }

  lemma DangleInv(s: Mgr)
    requires Inv(s)
    ensures Inv(Dangle(s))
  {
  }

  lemma OnStartInv(s: Mgr)
    requires Inv(s)
    ensures Inv(OnStart(s))
  {
    if !s.started {
      hide CarriesOk, EndsOk, WireOk, PendingOk, ScriptsOk, OwnerOk, TokenOk, PollsCarried, FreedOk, CacheOk,
           OutcomesOk, PollsOk, GuardsOk, RanOk;
      ResetMux(s.mux);
    }
  }

  lemma EnterInv(s: Mgr, a: Act)
    requires Inv(s)
    ensures Inv(Enter(s, a))
  {
    hide Inv;
    match a
    case Send(tag) => SendNeutral(s, User(tag), Other, "", "");
    case GetContext(q, _) => AskContextInv(s, q);
    case RemoveFromCache(q) => RemoveContextInv(s, q);
    case StartManager => OnStartInv(s);
    case StopManager => OnStopInv(s);
    case _ =>
      if Usable(s.pool, a.ptr) { EnterContextInv(s, a); } else { DangleInv(s); }
  }

  lemma EnterContextInv(s: Mgr, a: Act)
    requires Inv(s) && (a.Operate? || a.PressKey? || a.CloseContext? || a.After? || a.WaitFor?) && a.ptr in s.pool.heap
    ensures Inv(EnterContext(s, a))
  {
    hide Inv;
    var t := s.pool.heap[a.ptr];
    match a
    case Operate(_, _, tag, _) => SendNeutral(s, User(tag), Other, t.session, "");
    case PressKey(x, tag, _) => SendNeutral(s, KeyDown(x, tag), DispatchKey, t.session, "keyDown");
    case CloseContext(x, _) => StartCloseInv(s, x);
    case After(x) => DeferInv(s, x);
    case WaitFor(x, css, timeout, _) =>
      NewWaitInv(s, x, css, timeout, if t.closed then RefuseWait(s, x, css, timeout) else StartWait(s, x, css, timeout));
  }

  lemma RunActsInv(s: Mgr, acts: seq<Act>)
    requires Inv(s)
    ensures Inv(RunActs(s, acts))
    decreases acts, 0
  {
    if acts != [] {
      RunActInv(s, acts[0]);
      RunActsInv(RunAct(s, acts[0]), acts[1..]);
    }
  }

  lemma RunActInv(s: Mgr, a: Act)
    requires Inv(s)
    ensures Inv(RunAct(s, a))
    decreases a, 1
  {
    hide Inv, Enter;
    EnterInv(s, a);
    if AtOnce(s, a) { RunActsInv(Enter(s, a), a.inner); }
  }
}
