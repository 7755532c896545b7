/** Whole exchanges with the browser, and the ones the manager does not survive unchanged. */
module CdpScenarios {
  import opened CdpModel
  import opened CdpInvariants
  import opened CdpTheorems
  import opened CdpCallbacks

  function Success(id: int, text: string): Event {
    Reply(id, true, Payload(text, false), 1, [])
  }

  // ---- the single steps of an acquisition ----

  /** One get_context call for an uncached platform sends createTarget. */
  lemma AskStep(s: Mgr, q: string)
    requires s.started && s.mux.wsReady && q !in s.pool.contexts
    ensures var n := s.mux.cmdId; var c := |s.book.calls|;
            var t := RunAct(s, GetContext(q, []));
            && t.mux.cmdId == n + 1 && t.mux.wsReady && t.mux.pending == s.mux.pending[n := Create(c, q)]
            && t.mux.wire == s.mux.wire + [Msg(n, CreateTarget, "", "")]
            && t.pool == s.pool && t.started && |t.book.calls| == c + 1
            && t.book.got == s.book.got && t.book.result == s.book.result
  {
  }

  lemma CreatedStep(s: Mgr, id: int, c: nat, q: string, target: string)
    requires id in s.mux.pending && s.mux.pending[id] == Create(c, q) && id < s.mux.cmdId
    ensures var t := Step(s, Success(id, target));
            && t.mux.cmdId == s.mux.cmdId + 1 && t.mux.wsReady == s.mux.wsReady
            && t.mux.pending == s.mux.pending[s.mux.cmdId := Attach(c, q, target)] - {id}
            && (s.mux.wsReady ==> t.mux.wire == s.mux.wire + [Msg(s.mux.cmdId, AttachToTarget, "", target)])
            && t.pool == s.pool && t.started == s.started
            && t.book.got == s.book.got && t.book.result == s.book.result
  {
  }

  lemma AttachedStep(s: Mgr, id: int, c: nat, q: string, target: string, session: string)
    requires id in s.mux.pending && s.mux.pending[id] == Attach(c, q, target) && id < s.mux.cmdId
    ensures var t := Step(s, Success(id, session)); var n := s.mux.cmdId; var x := s.pool.nextPtr;
            && t.mux.cmdId == n + 2 && t.mux.wsReady == s.mux.wsReady
            && t.mux.pending == s.mux.pending[n := AddScript(c, q, x)][n + 1 := Noop] - {id}
            && (s.mux.wsReady ==>
                  t.mux.wire == s.mux.wire + [Msg(n, AddInitScript, session, ""),
                                              Msg(n + 1, PageEnable, session, "")])
            && t.pool.contexts == s.pool.contexts && t.pool.nextPtr == x + 1 && t.pool.freed == s.pool.freed
            && t.pool.heap == s.pool.heap[x := Ctx(q, target, session, false, {})]
            && t.started == s.started && t.book.got == s.book.got && t.book.result == s.book.result
  {
  }

  lemma ScriptedStep(s: Mgr, id: int, c: nat, q: string, x: nat)
    requires id in s.mux.pending && s.mux.pending[id] == AddScript(c, q, x)
    ensures var t := Step(s, Success(id, ""));
            && t.mux.cmdId == s.mux.cmdId && t.mux.wsReady == s.mux.wsReady
            && t.mux.pending == s.mux.pending - {id} && t.mux.wire == s.mux.wire
            && t.pool.contexts == s.pool.contexts[q := x]
            && t.pool.heap == (if q in s.pool.contexts then s.pool.heap - {s.pool.contexts[q]} else s.pool.heap)
            && t.pool.freed == s.pool.freed + (if q in s.pool.contexts then multiset{s.pool.contexts[q]} else multiset{})
            && t.book.got == s.book.got + multiset{c} && t.book.result == s.book.result[c := x]
            && t.started == s.started
  {
    assert (s.pool.contexts - {q})[q := x] == s.pool.contexts[q := x];
  }

  lemma CallOne(s: Mgr, a: Act)
    ensures Step(s, Call([a])) == RunAct(s, a)
  {
    assert [a][1..] == [];
    assert RunActs(RunAct(s, a), []) == RunAct(s, a);
  }

  lemma CallTwo(s: Mgr, a: Act, b: Act)
    ensures Step(s, Call([a, b])) == RunAct(RunAct(s, a), b)
  {
    assert [a, b][1..] == [b];
    CallOne(RunAct(s, a), b);
  }

  lemma FreshIds(m: Mux)
    requires PendingOk(m)
    ensures forall i :: i >= m.cmdId ==> i !in m.pending
  {
  }

  /** From any state of a running, connected manager, an acquisition that nothing interrupts sends
      four commands in this order, the last two with the session of the attach reply, and caches and
      hands out a new open context holding the platform, the target and the session. */
  lemma Acquisition(s: Mgr, q: string, target: string, session: string, s1: Mgr, s2: Mgr, s3: Mgr, s4: Mgr)
    requires PendingOk(s.mux) && s.started && s.mux.wsReady && q !in s.pool.contexts
    requires s1 == Step(s, Call([GetContext(q, [])]))
    requires s2 == Step(s1, Success(s.mux.cmdId, target))
    requires s3 == Step(s2, Success(s.mux.cmdId + 1, session))
    requires s4 == Step(s3, Success(s.mux.cmdId + 2, ""))
    ensures var n := s.mux.cmdId; var c := |s.book.calls|; var x := s.pool.nextPtr;
            && s4.mux.wire == s.mux.wire + [Msg(n, CreateTarget, "", ""),
                                            Msg(n + 1, AttachToTarget, "", target),
                                            Msg(n + 2, AddInitScript, session, ""),
                                            Msg(n + 3, PageEnable, session, "")]
            && s4.pool.contexts == s.pool.contexts[q := x]
            && s4.pool.heap == s.pool.heap[x := Ctx(q, target, session, false, {})]
            && s4.book.got == s.book.got + multiset{c} && s4.book.result == s.book.result[c := x]
  {
    var n := s.mux.cmdId;
    var c := |s.book.calls|;
    hide *;
    FreshIds(s.mux);
    CallOne(s, GetContext(q, []));
    AskStep(s, q);
    CreatedStep(s1, n, c, q, target);
    AttachedStep(s2, n + 1, c, q, target, session);
    ScriptedStep(s3, n + 2, c, q, s.pool.nextPtr);
  }

  predicate Awaits(s: Mgr, id: int, h: Handler) {
    id in s.mux.pending && s.mux.pending[id] == h
  }

  /** Two requests for an uncached platform, both answered up to their targets. */
  lemma TwoAsked(s: Mgr, q: string, s1: Mgr, s2: Mgr, s3: Mgr, t1: string, t2: string)
    requires PendingOk(s.mux) && s.started && s.mux.wsReady && q !in s.pool.contexts
    requires s1 == Step(s, Call([GetContext(q, []), GetContext(q, [])]))
    requires s2 == Step(s1, Success(s.mux.cmdId, t1)) && s3 == Step(s2, Success(s.mux.cmdId + 1, t2))
    ensures var n, c := s.mux.cmdId, |s.book.calls|;
            && s3.mux.cmdId == n + 4 && s3.mux.wsReady && s3.started && s3.pool == s.pool
            && Awaits(s3, n + 2, Attach(c, q, t1)) && Awaits(s3, n + 3, Attach(c + 1, q, t2))
            && s3.book.got == s.book.got && s3.book.result == s.book.result
  {
    var n := s.mux.cmdId;
    var c := |s.book.calls|;
    var get := GetContext(q, []);
    hide *;
    FreshIds(s.mux);
    CallTwo(s, get, get);
    AskStep(s, q);
    AskStep(RunAct(s, get), q);
    CreatedStep(s1, n, c, q, t1);
    CreatedStep(s2, n + 1, c + 1, q, t2);
    AwaitsIff(s3, n + 2, Attach(c, q, t1));
    AwaitsIff(s3, n + 3, Attach(c + 1, q, t2));
  }

  lemma AwaitsIff(s: Mgr, id: int, h: Handler)
    ensures Awaits(s, id, h) <==> id in s.mux.pending && s.mux.pending[id] == h
  {
  }

  /** Two overlapping acquisitions for one platform break the promise of one context per platform:
      both calls complete, with different contexts, and the first one is freed under its holder. */
  lemma OverlappingAcquisitions(s: Mgr, q: string, s1: Mgr, s2: Mgr, s3: Mgr, s4: Mgr, s5: Mgr, s6: Mgr, s7: Mgr,
                                t1: string, t2: string, u1: string, u2: string)
    requires PendingOk(s.mux) && s.started && s.mux.wsReady && q !in s.pool.contexts
    requires s1 == Step(s, Call([GetContext(q, []), GetContext(q, [])]))
    requires s2 == Step(s1, Success(s.mux.cmdId, t1)) && s3 == Step(s2, Success(s.mux.cmdId + 1, t2))
    requires s4 == Step(s3, Success(s.mux.cmdId + 2, u1)) && s5 == Step(s4, Success(s.mux.cmdId + 3, u2))
    requires s6 == Step(s5, Success(s.mux.cmdId + 4, "")) && s7 == Step(s6, Success(s.mux.cmdId + 6, ""))
    ensures var c := |s.book.calls|; var x := s.pool.nextPtr;
            && s7.book.got == s.book.got + multiset{c} + multiset{c + 1}
            && s7.book.result == s.book.result[c := x][c + 1 := x + 1]
            && q in s7.pool.contexts && s7.pool.contexts[q] == x + 1 && s7.pool.freed == s.pool.freed + multiset{x}
  {
    var n := s.mux.cmdId;
    var c := |s.book.calls|;
    var x := s.pool.nextPtr;
    hide *;
    TwoAsked(s, q, s1, s2, s3, t1, t2);
    AwaitsIff(s3, n + 2, Attach(c, q, t1));
    AwaitsIff(s3, n + 3, Attach(c + 1, q, t2));
    AttachedStep(s3, n + 2, c, q, t1, u1);
    AttachedStep(s4, n + 3, c + 1, q, t2, u2);
    ScriptedStep(s5, n + 4, c, q, x);
    ScriptedStep(s6, n + 6, c + 1, q, x + 1);
  }

  // ---- pointers to contexts that are gone ----

  /** The positive reply to a close, or to the first half of a key press, whose context was freed. */
  ghost predicate RepliesGone(s: Mgr, e: Event) {
    && e.Reply? && e.ok && e.id in s.mux.pending && (s.mux.pending[e.id].Close? || s.mux.pending[e.id].KeyDown?)
    && s.mux.pending[e.id].ctx !in s.pool.heap
  }

  ghost predicate Gone(s: Mgr, w: nat) {
    w < |s.poller.waits| && s.poller.waits[w].ctx !in s.pool.heap
  }

  /** A posted check, or a reply that makes a wait check again, whose context was freed. */
  ghost predicate ChecksGone(s: Mgr, e: Event) {
    || (e.Checked? && e.wait in s.poller.posted && Gone(s, e.wait))
    || (e.Reply? && !(e.ok && e.data.found) && e.id in s.mux.pending && s.mux.pending[e.id].Poll?
        && Gone(s, s.mux.pending[e.id].wait))
  }

  lemma CheckGone(s: Mgr, w: nat)
    requires w < |s.poller.waits| && w < |s.poller.polls| && !s.poller.waits[w].done
    ensures Check(s, w).dangling <==> s.dangling || Gone(s, w)
  {
    hide Issue;
  }

  lemma ReactGone(s: Mgr, h: Handler, ok: bool, data: Payload)
    requires h.Poll? ==> h.wait < |s.poller.waits| && h.wait < |s.poller.polls| && !s.poller.waits[h.wait].done
    ensures React(s, h, ok, data).dangling <==>
            s.dangling || ((h.Close? || h.KeyDown?) && ok && h.ctx !in s.pool.heap) || (h.Poll? && !(ok && data.found) && Gone(s, h.wait))
  {
    hide Issue, ClearGuards, Check;
    if h.Poll? { CheckGone(s, h.wait); }
  }

  lemma BeforeDangling(s: Mgr, e: Event)
    requires Inv(s)
    ensures Before(s, e).dangling <==> s.dangling || RepliesGone(s, e) || ChecksGone(s, e)
  {
    hide Inv;
    hide React, ClearGuards, Check, Open, Reset;
    match e
    case Reply(id, ok, data, dt, acts) =>
      if id in s.mux.pending {
        PollDue(s, id);
        ReactGone(Answer(Tick(s, dt, true), id, ok), s.mux.pending[id], ok, data);
      }
    case Checked(w, dt, acts) =>
      if w in s.poller.posted {
        PolledEqually(s);
        DoneGuardsNeverTaken(s, w);
        CheckGone(Unpost(Tick(s, dt, false), w), w);
      }
    case _ =>
  }

  lemma PollDue(s: Mgr, id: int)
    requires Inv(s) && id in s.mux.pending
    ensures var h, p := s.mux.pending[id], s.poller;
            h.Poll? ==> h.wait < |p.waits| && h.wait < |p.polls| && !p.waits[h.wait].done
  {
    hide Inv;
    PolledEqually(s);
    if w: nat :| s.mux.pending[id] == Poll(w) {
      assert CarriesWait(s.mux, id, w);
      DoneGuardsNeverTaken(s, w);
    }
  }

  /** Among the calls that a callback makes, nested ones included, is one to a context that the cache
      does not own. */
  ghost predicate Misuses(s: Mgr, acts: seq<Act>)
    decreases acts, 0
  {
    acts != [] && (MisusesOne(s, acts[0]) || Misuses(RunAct(s, acts[0]), acts[1..]))
  }

  ghost predicate MisusesOne(s: Mgr, a: Act)
    decreases a, 1
  {
    || ((a.Operate? || a.PressKey? || a.CloseContext? || a.After? || a.WaitFor?) && !Usable(s.pool, a.ptr))
    || (AtOnce(s, a) && Misuses(Enter(s, a), a.inner))
  }

  lemma EnterDangling(s: Mgr, a: Act)
    ensures Enter(s, a).dangling <==>
            s.dangling || ((a.Operate? || a.PressKey? || a.CloseContext? || a.After? || a.WaitFor?) && !Usable(s.pool, a.ptr))
  {
    hide Issue, ClearGuards, Reset, Usable;
  }

  lemma ActsDangling(s: Mgr, acts: seq<Act>)
    ensures RunActs(s, acts).dangling <==> s.dangling || Misuses(s, acts)
    decreases acts, 0
  {
    if acts != [] {
      ActDangling(s, acts[0]);
      ActsDangling(RunAct(s, acts[0]), acts[1..]);
      hide RunAct, MisusesOne;
    }
  }

  lemma ActDangling(s: Mgr, a: Act)
    ensures RunAct(s, a).dangling <==> s.dangling || MisusesOne(s, a)
    decreases a, 1
  {
    EnterDangling(s, a);
    hide Enter;
    if AtOnce(s, a) { ActsDangling(Enter(s, a), a.inner); }
  }

  /** A deleted context is dereferenced, or one that is not the caller's to use, exactly by a positive
      reply to a close or to a keyDown, or by a check, that arrives after the context was freed, or by a
      callback that calls a context the cache does not own. */
  lemma DanglingExactly(s: Mgr, e: Event)
    requires Inv(s)
    ensures Step(s, e).dangling <==>
            s.dangling || RepliesGone(s, e) || ChecksGone(s, e) || Misuses(Before(s, e), Callback(s, e))
  {
    BeforeDangling(s, e);
    StepSplits(s, e);
    hide Inv, Step, Before, Callback;
    ActsDangling(Before(s, e), Callback(s, e));
  }

  /** It happens: a close reply, or the reply to a keyDown, that is handled only after stop() finds its
      context deleted; the keyUp is not sent. */
  lemma LateReply(s: Mgr, a: Act, s1: Mgr, s2: Mgr, s3: Mgr)
    requires (a.CloseContext? || a.PressKey?) && PendingOk(s.mux) && s.started
    requires Usable(s.pool, a.ptr) && !s.pool.heap[a.ptr].closed
    requires s1 == Step(s, Call([a])) && s2 == Step(s1, Stop) && s3 == Step(s2, Success(s.mux.cmdId, ""))
    ensures a.ptr !in s2.pool.heap && s3.dangling && s3.mux.cmdId == s.mux.cmdId + 1
  {
    var n := s.mux.cmdId;
    var x := a.ptr;
    CallOne(s, a);
    assert s1.mux.pending == s.mux.pending[n := if a.PressKey? then KeyDown(x, a.tag) else Close(x)];
    assert s1.pool.contexts == s.pool.contexts && s1.started && s1.mux.cmdId == n + 1;
    assert x in s1.pool.contexts.Values by { assert s1.pool.contexts[s.pool.heap[x].platform] == x; }
    assert s2.mux == s1.mux && x !in s2.pool.heap;
    assert s3 == OnReply(Tick(s2, 1, true), n, true, Payload("", false), []);
  }

  /** A key press on an open context that nothing interrupts sends keyDown and then keyUp, both with the
      session of the context, and only the reply to the second goes to the caller. */
  lemma KeyPress(s: Mgr, x: nat, tag: nat, inner: seq<Act>, s1: Mgr, s2: Mgr)
    requires PendingOk(s.mux) && s.mux.wsReady && Usable(s.pool, x) && !s.pool.heap[x].closed
    requires s1 == Step(s, Call([PressKey(x, tag, inner)])) && s2 == Step(s1, Success(s.mux.cmdId, ""))
    ensures var n, session := s.mux.cmdId, s.pool.heap[x].session;
            && s2.mux.wire == s.mux.wire + [Msg(n, DispatchKey, session, "keyDown"), Msg(n + 1, DispatchKey, session, "keyUp")]
            && s2.mux.pending == s.mux.pending[n + 1 := User(tag)] && s2.dangling == s.dangling
  {
    var n := s.mux.cmdId;
    CallOne(s, PressKey(x, tag, inner));
    assert s1.mux.pending == s.mux.pending[n := KeyDown(x, tag)] && s1.pool == s.pool && s1.mux.cmdId == n + 1;
    assert s1.mux.wire == s.mux.wire + [Msg(n, DispatchKey, s.pool.heap[x].session, "keyDown")];
    FreshIds(s.mux);
    assert s2 == OnReply(Tick(s1, 1, true), n, true, Payload("", false), []);
    assert s1.mux.pending[n + 1 := User(tag)] - {n} == s.mux.pending[n + 1 := User(tag)];
  }

  /** So does an evaluate that is answered only after the close of its context: from any such state,
      wait_for_selector, its first check, close, the close reply, and then the reply that has not found
      the selector. */
  lemma LateEvaluate(s: Mgr, x: nat, css: string, timeout: nat, s1: Mgr, s2: Mgr, s3: Mgr, s4: Mgr, s5: Mgr)
    requires Inv(s) && Usable(s.pool, x) && !s.pool.heap[x].closed && Int64(timeout) > 0
    requires s1 == Step(s, Call([WaitFor(x, css, timeout, [])])) && s2 == Step(s1, Checked(|s.poller.waits|, 0, []))
    requires s3 == Step(s2, Call([CloseContext(x, [])])) && s4 == Step(s3, Success(s.mux.cmdId + 1, ""))
    requires s5 == Step(s4, Success(s.mux.cmdId, ""))
    ensures s4.dangling == s.dangling && x !in s4.pool.heap && s5.dangling
  {
    hide *;
    var n, w := s.mux.cmdId, |s.poller.waits|;
    PolledEqually(s);
    CallOne(s, WaitFor(x, css, timeout, []));
    WaitStep(s, x, css, timeout);
    CheckStep(s1, w, x);
    CallOne(s2, CloseContext(x, []));
    CloseStep(s2, x);
    ClosedStep(s3, n + 1, x);
    PollStep(s4, n, w);
  }

  lemma WaitStep(s: Mgr, x: nat, css: string, timeout: nat)
    requires Usable(s.pool, x) && !s.pool.heap[x].closed && |s.poller.polls| == |s.poller.waits|
    ensures var t, w := RunAct(s, WaitFor(x, css, timeout, [])), |s.poller.waits|;
            && t.mux == s.mux && t.pool == s.pool && t.clock == s.clock && t.dangling == s.dangling
            && |t.poller.waits| == |t.poller.polls| == w + 1 && t.poller.waits[w] == Wait(x, css, s.clock, timeout, false)
            && w in t.poller.posted
  {
  }

  lemma CheckStep(s: Mgr, w: nat, x: nat)
    requires w < |s.poller.waits| == |s.poller.polls| && w in s.poller.posted && Usable(s.pool, x) && !s.pool.heap[x].closed
    requires var t := s.poller.waits[w]; t.ctx == x && !t.done && t.start == s.clock && Int64(t.timeout) > 0
    ensures var t := Step(s, Checked(w, 0, []));
            && t.mux.cmdId == s.mux.cmdId + 1 && t.mux.pending == s.mux.pending[s.mux.cmdId := Poll(w)]
            && t.pool == s.pool && t.dangling == s.dangling
            && |t.poller.waits| == |t.poller.polls| == |s.poller.waits| && t.poller.waits == s.poller.waits
  {
    hide Int64;
  }

  lemma CloseStep(s: Mgr, x: nat)
    requires Usable(s.pool, x) && !s.pool.heap[x].closed
    ensures var t := RunAct(s, CloseContext(x, []));
            && t.mux.cmdId == s.mux.cmdId + 1 && t.mux.pending == s.mux.pending[s.mux.cmdId := Close(x)]
            && x in t.pool.heap && Usable(t.pool, x) && t.dangling == s.dangling && t.poller == s.poller
  {
  }

  lemma ClosedStep(s: Mgr, id: int, x: nat)
    requires id in s.mux.pending && s.mux.pending[id] == Close(x) && Usable(s.pool, x)
    ensures var t := Step(s, Success(id, ""));
            && t.mux.pending == s.mux.pending - {id} && x !in t.pool.heap && t.dangling == s.dangling
            && t.poller.waits == s.poller.waits && t.poller.polls == s.poller.polls
  {
    hide ClearGuards;
  }

  lemma PollStep(s: Mgr, id: int, w: nat)
    requires id in s.mux.pending && s.mux.pending[id] == Poll(w) && w < |s.poller.waits| == |s.poller.polls|
    requires !s.poller.waits[w].done && s.poller.waits[w].ctx !in s.pool.heap
    ensures Step(s, Success(id, "")).dangling
  {
  }
}
