/** When a run never reads a deleted context, and when the next step may. */
module CdpSafety {
  import opened CdpModel
  import opened CdpInvariants
  import opened CdpReplies
  import opened CdpTheorems
  import opened CdpScenarios

  /** What an outstanding command or a posted check will read belongs to a context in `live`. */
  ghost predicate RefersWithin(pending: map<int, Handler>, p: Poller, live: set<nat>) {
    && (forall i :: i in pending && (pending[i].Close? || pending[i].KeyDown?) ==> pending[i].ctx in live)
    && (forall i :: i in pending && pending[i].Poll? ==>
          pending[i].wait < |p.waits| && p.waits[pending[i].wait].ctx in live)
    && (forall w: nat :: w in p.posted ==> w < |p.waits| && p.waits[w].ctx in live)
  }

  /** Every outstanding command and every posted check finds its context allocated. */
  ghost predicate AllLive(s: Mgr) {
    RefersWithin(s.mux.pending, s.poller, s.pool.heap.Keys)
  }

  /** No close, keyDown or evaluate of context x is unanswered, and no check of its waits is posted. */
  ghost predicate Unreferenced(s: Mgr, x: nat) {
    && (forall i :: i in s.mux.pending && (s.mux.pending[i].Close? || s.mux.pending[i].KeyDown?) ==> s.mux.pending[i].ctx != x)
    && (forall i :: i in s.mux.pending && s.mux.pending[i].Poll? && s.mux.pending[i].wait < |s.poller.waits| ==>
          s.poller.waits[s.mux.pending[i].wait].ctx != x)
    && (forall w: nat :: w in s.poller.posted && w < |s.poller.waits| ==> s.poller.waits[w].ctx != x)
  }

  /** A context that leaves the heap in this step leaves nothing behind that refers to it. */
  ghost predicate FreesSafely(s: Mgr, e: Event) {
    forall x: nat :: (x in s.pool.heap || x in Before(s, e).pool.heap) && x !in Step(s, e).pool.heap ==>
      Unreferenced(Step(s, e), x)
  }

  // ---- what a step may refer to ----

  lemma SendRefers(s: Mgr, h: Handler, name: Method, session: string, arg: string, live: set<nat>)
    requires RefersWithin(s.mux.pending, s.poller, live) && !h.Poll? && (h.Close? || h.KeyDown? ==> h.ctx in live)
    ensures var t := SendCommand(s, h, name, session, arg); RefersWithin(t.mux.pending, t.poller, live)
  {
  }

  lemma AskRefers(s: Mgr, q: string, live: set<nat>)
    requires RefersWithin(s.mux.pending, s.poller, live)
    ensures var t := AskContext(s, q); RefersWithin(t.mux.pending, t.poller, live)
  {
  }

  lemma WaitRefers(s: Mgr, x: nat, css: string, timeout: nat, live: set<nat>)
    requires RefersWithin(s.mux.pending, s.poller, live) && x in live
    ensures var t := StartWait(s, x, css, timeout); RefersWithin(t.mux.pending, t.poller, live)
    ensures var t := RefuseWait(s, x, css, timeout); RefersWithin(t.mux.pending, t.poller, live)
  {
  }

  lemma CloseRefers(s: Mgr, x: nat, live: set<nat>)
    requires RefersWithin(s.mux.pending, s.poller, live) && x in live && x in s.pool.heap
    ensures var t := StartClose(s, x); RefersWithin(t.mux.pending, t.poller, live)
  {
  }

  lemma SameRefers(s: Mgr, x: nat, q: string)
    ensures OnStop(s).mux == s.mux && OnStop(s).poller == s.poller
    ensures RemoveContext(s, q).mux == s.mux && RemoveContext(s, q).poller == s.poller
    ensures OnStart(s).mux.pending == s.mux.pending && OnStart(s).poller == s.poller
    ensures x in s.pool.heap ==> Defer(s, x).mux == s.mux && Defer(s, x).poller == s.poller
  {
    hide ClearGuards;
  }

  lemma EnterContextRefers(s: Mgr, a: Act, live: set<nat>)
    requires (a.Operate? || a.PressKey? || a.CloseContext? || a.After? || a.WaitFor?) && a.ptr in s.pool.heap
    requires RefersWithin(s.mux.pending, s.poller, live) && s.pool.heap.Keys <= live
    ensures var t := EnterContext(s, a); RefersWithin(t.mux.pending, t.poller, live)
  {
    assert a.ptr in live;
    hide RefersWithin, SendCommand, StartClose, Defer, StartWait, RefuseWait;
    var t := s.pool.heap[a.ptr];
    match a
    case Operate(_, _, tag, _) => SendRefers(s, User(tag), Other, t.session, "", live);
    case PressKey(x, tag, _) => SendRefers(s, KeyDown(x, tag), DispatchKey, t.session, "keyDown", live);
    case CloseContext(x, _) => CloseRefers(s, x, live);
    case After(x) => SameRefers(s, x, "");
    case WaitFor(x, css, timeout, _) => WaitRefers(s, x, css, timeout, live);
  }

  lemma EnterRefers(s: Mgr, a: Act, live: set<nat>)
    requires RefersWithin(s.mux.pending, s.poller, live) && s.pool.heap.Keys <= live
    ensures var t := Enter(s, a); RefersWithin(t.mux.pending, t.poller, live)
  {
    hide RefersWithin, SendCommand, AskContext, RemoveContext, OnStart, OnStop, EnterContext;
    SameRefers(s, 0, if a.RemoveFromCache? then a.platform else "");
    match a
    case Send(tag) => SendRefers(s, User(tag), Other, "", "", live);
    case GetContext(q, _) => AskRefers(s, q, live);
    case RemoveFromCache(q) =>
    case StartManager =>
    case StopManager =>
    case _ =>
      if Usable(s.pool, a.ptr) { EnterContextRefers(s, a, live); }
  }

  lemma ActsRefer(s: Mgr, acts: seq<Act>, live: set<nat>)
    requires RefersWithin(s.mux.pending, s.poller, live) && s.pool.heap.Keys <= live
    ensures var t := RunActs(s, acts); RefersWithin(t.mux.pending, t.poller, live)
    decreases acts, 0
  {
    if acts != [] {
      ActRefers(s, acts[0], live);
      HeapShrinks(s, [acts[0]]);
      CallOneAct(s, acts[0]);
      hide RefersWithin, RunAct;
      ActsRefer(RunAct(s, acts[0]), acts[1..], live);
    }
  }

  lemma ActRefers(s: Mgr, a: Act, live: set<nat>)
    requires RefersWithin(s.mux.pending, s.poller, live) && s.pool.heap.Keys <= live
    ensures var t := RunAct(s, a); RefersWithin(t.mux.pending, t.poller, live)
    decreases a, 1
  {
    hide RefersWithin, Enter;
    EnterRefers(s, a, live);
    EnterShrinks(s, a);
    if AtOnce(s, a) { ActsRefer(Enter(s, a), a.inner, live); }
  }

  lemma EnterShrinks(s: Mgr, a: Act)
    ensures Enter(s, a).pool.heap.Keys <= s.pool.heap.Keys
  {
    hide MuxFrame, PollerFrame, TimersFrame, Enter;
    EnterFrame(s, a);
  }

  lemma HeapShrinks(s: Mgr, acts: seq<Act>)
    ensures RunActs(s, acts).pool.heap.Keys <= s.pool.heap.Keys
  {
    hide MuxFrame, PollerFrame, TimersFrame, RunActs;
    RunActsFrame(s, acts);
  }

  lemma CallOneAct(s: Mgr, a: Act)
    ensures RunActs(s, [a]) == RunAct(s, a)
  {
    assert [a][1..] == [];
    assert RunActs(RunAct(s, a), []) == RunAct(s, a);
  }

  lemma CheckRefers(s: Mgr, w: nat, live: set<nat>)
    requires RefersWithin(s.mux.pending, s.poller, live) && (w < |s.poller.waits| ==> s.poller.waits[w].ctx in live)
    ensures var t := Check(s, w); RefersWithin(t.mux.pending, t.poller, live)
  {
    var p := s.poller;
    if w < |p.waits| && w < |p.polls| {
      DoneRefers(s, w, live);
      if p.waits[w].ctx in s.pool.heap { PollRefers(s, w, s.pool.heap[p.waits[w].ctx].session, live); }
    }
    hide Expired, RefersWithin, IssuePoll, SetDone;
  }

  lemma DoneRefers(s: Mgr, w: nat, live: set<nat>)
    requires RefersWithin(s.mux.pending, s.poller, live) && w < |s.poller.waits|
    ensures RefersWithin(s.mux.pending, GiveUp(s, w).poller, live) && RefersWithin(s.mux.pending, TimeOut(s, w).poller, live)
  {
  }

  lemma PollRefers(s: Mgr, w: nat, session: string, live: set<nat>)
    requires RefersWithin(s.mux.pending, s.poller, live) && w < |s.poller.waits| && w < |s.poller.polls|
    requires s.poller.waits[w].ctx in live
    ensures var t := IssuePoll(s, w, session); RefersWithin(t.mux.pending, t.poller, live)
  {
  }

  lemma AttachedRefers(s: Mgr, c: nat, q: string, target: string, session: string, live: set<nat>)
    requires RefersWithin(s.mux.pending, s.poller, live)
    ensures var t := Attached(s, c, q, target, session); RefersWithin(t.mux.pending, t.poller, live)
  {
  }

  lemma ReactRefers(s: Mgr, id: int, ok: bool, data: Payload, live: set<nat>)
    requires RefersWithin(s.mux.pending, s.poller, live) && id in s.mux.pending
    ensures var t := React(s, s.mux.pending[id], ok, data); RefersWithin(t.mux.pending, t.poller, live)
  {
    hide ClearGuards, Check, Attached, Issue;
    var h := s.mux.pending[id];
    match h
    case Create(c, q) =>
      CreatedRefers(s, c, q, data.text, live);
    case Attach(c, q, target) =>
      AttachedRefers(s, c, q, target, data.text, live);
    case Poll(w) =>
      CheckRefers(s, w, live);
    case KeyDown(x, tag) =>
      if x in s.pool.heap { SendRefers(s, User(tag), DispatchKey, s.pool.heap[x].session, "keyUp", live); }
    case _ =>
  }

  lemma CreatedRefers(s: Mgr, c: nat, q: string, target: string, live: set<nat>)
    requires RefersWithin(s.mux.pending, s.poller, live)
    ensures var t := SendForCall(s, c, Attach(c, q, target), AttachToTarget, "", target);
            RefersWithin(t.mux.pending, t.poller, live)
  {
  }

  lemma BeforeRefers(s: Mgr, e: Event)
    requires AllLive(s)
    ensures var b := Before(s, e); RefersWithin(b.mux.pending, b.poller, s.pool.heap.Keys)
  {
    hide React, Check, RefersWithin, OnStop, OnStart, Open, Tick, Answer, Unpost;
    var live := s.pool.heap.Keys;
    SameRefers(s, 0, "");
    match e
    case Reply(id, ok, data, dt, acts) =>
      TickRefers(s, dt, id, ok, 0, live);
      if id in s.mux.pending { ReactRefers(Answer(Tick(s, dt, true), id, ok), id, ok, data, live); }
    case Checked(w, dt, acts) =>
      TickRefers(s, dt, 0, true, w, live);
      PostedRefers(s, w, live);
      if w in s.poller.posted { CheckRefers(Unpost(Tick(s, dt, false), w), w, live); }
    case Opened => OpenRefers(s.mux, s.poller, live);
    case _ =>
  }

  lemma TickRefers(s: Mgr, dt: nat, id: int, ok: bool, w: nat, live: set<nat>)
    requires RefersWithin(s.mux.pending, s.poller, live)
    ensures forall reply :: RefersWithin(s.mux.pending, Tick(s, dt, reply).poller, live)
    ensures var t := Answer(Tick(s, dt, true), id, ok);
            t.mux.pending == s.mux.pending && RefersWithin(t.mux.pending, t.poller, live)
    ensures var t := Unpost(Tick(s, dt, false), w);
            t.poller.waits == s.poller.waits && RefersWithin(t.mux.pending, t.poller, live)
    ensures Tick(s, dt, true).mux == s.mux == Tick(s, dt, false).mux
    ensures Tick(s, dt, false).poller.posted == s.poller.posted
  {
  }

  lemma PostedRefers(s: Mgr, w: nat, live: set<nat>)
    requires RefersWithin(s.mux.pending, s.poller, live)
    ensures w in s.poller.posted ==> w < |s.poller.waits| && s.poller.waits[w].ctx in live
  {
  }

  lemma OpenRefers(m: Mux, p: Poller, live: set<nat>)
    requires RefersWithin(m.pending, p, live)
    ensures RefersWithin(Open(m).pending, p, live)
  {
  }

  lemma StepRefers(s: Mgr, e: Event)
    requires AllLive(s)
    ensures var t := Step(s, e);
            RefersWithin(t.mux.pending, t.poller, s.pool.heap.Keys + Before(s, e).pool.heap.Keys)
  {
    var b := Before(s, e);
    var live := s.pool.heap.Keys + b.pool.heap.Keys;
    BeforeRefers(s, e);
    StepSplits(s, e);
    assert RefersWithin(b.mux.pending, b.poller, live);
    hide Before, Callback, Step, AllLive, RefersWithin;
    ActsRefer(b, Callback(s, e), live);
    if e.Reply? { EraseRefers(RunActs(b, Callback(s, e)), e.id, live); }
  }

  lemma EraseRefers(s: Mgr, id: int, live: set<nat>)
    requires RefersWithin(s.mux.pending, s.poller, live)
    ensures var t := Erase(s, id); RefersWithin(t.mux.pending, t.poller, live)
  {
  }

  lemma StepLive(s: Mgr, e: Event)
    requires AllLive(s) && FreesSafely(s, e)
    ensures AllLive(Step(s, e))
  {
    StepRefers(s, e);
    hide Before, Step;
  }

  // ---- the results ----

  /** The condition of the next step is exact: some event that calls no context it must not can read a
      deleted context if and only if an outstanding command or a posted check refers to one. */
  lemma NextStepIff(s: Mgr)
    requires Inv(s) && !s.dangling
    ensures AllLive(s) <==> forall e :: !Misuses(Before(s, e), Callback(s, e)) ==> !Step(s, e).dangling
  {
    if AllLive(s) {
      forall e | !Misuses(Before(s, e), Callback(s, e)) ensures !Step(s, e).dangling { LiveStep(s, e); }
    } else {
      var e := Culprit(s);
      assert !Misuses(Before(s, e), Callback(s, e)) && Step(s, e).dangling;
    }
  }

  lemma LiveStep(s: Mgr, e: Event)
    requires Inv(s) && AllLive(s) && !s.dangling && !Misuses(Before(s, e), Callback(s, e))
    ensures !Step(s, e).dangling
  {
    DanglingExactly(s, e);
    hide Inv, Before, Callback, Step, Misuses;
  }

  /** The event that does it: the reply to that command, or that check. */
  lemma Culprit(s: Mgr) returns (e: Event)
    requires Inv(s) && !AllLive(s)
    ensures Step(s, e).dangling && !Misuses(Before(s, e), Callback(s, e))
  {
    e := FindCulprit(s);
    hide Inv, AllLive, RepliesGone, ChecksGone, Before, Step;
    DanglingExactly(s, e);
  }

  lemma FindCulprit(s: Mgr) returns (e: Event)
    requires Inv(s) && !AllLive(s)
    ensures (RepliesGone(s, e) || ChecksGone(s, e)) && Callback(s, e) == []
  {
    hide Inv;
    Bounds(s);
    if i :| i in s.mux.pending && (s.mux.pending[i].Close? || s.mux.pending[i].KeyDown?) && s.mux.pending[i].ctx !in s.pool.heap {
      e := Reply(i, true, Payload("", false), 0, []);
    } else if i :| i in s.mux.pending && s.mux.pending[i].Poll? && s.poller.waits[s.mux.pending[i].wait].ctx !in s.pool.heap {
      e := Reply(i, true, Payload("", false), 0, []);
    } else {
      var w: nat :| w in s.poller.posted && s.poller.waits[w].ctx !in s.pool.heap;
      e := Checked(w, 0, []);
    }
  }

  lemma Bounds(s: Mgr)
    requires Inv(s)
    ensures forall i :: i in s.mux.pending && s.mux.pending[i].Poll? ==> s.mux.pending[i].wait < |s.poller.waits|
    ensures forall w: nat :: w in s.poller.posted ==> w < |s.poller.waits|
  {
    forall i | i in s.mux.pending && s.mux.pending[i].Poll? ensures s.mux.pending[i].wait < |s.poller.waits| {
      assert Outstanding(s.mux.pending, s.poller.waitCmd, s.mux.pending[i].wait);
    }
  }

  /** Every context that leaves the heap, by stop(), a close reply, replacement or remove_context(), leaves
      no unanswered close, keyDown or evaluate and no posted check behind, and callbacks use contexts of
      the cache only. */
  ghost predicate SafeRun(s: Mgr, es: seq<Event>)
    decreases es
  {
    es == [] ||
    (FreesSafely(s, es[0]) && !Misuses(Before(s, es[0]), Callback(s, es[0])) && SafeRun(Step(s, es[0]), es[1..]))
  }

  /** Such a run never reads a deleted context. */
  lemma SafeRunsNeverDangle(s: Mgr, es: seq<Event>)
    requires Inv(s) && AllLive(s) && !s.dangling && SafeRun(s, es)
    ensures AllLive(Run(s, es)) && !Run(s, es).dangling
    decreases es
  {
    if es != [] {
      StepInv(s, es[0]);
      LiveStep(s, es[0]);
      StepLive(s, es[0]);
      hide Inv, AllLive, Step, FreesSafely, Misuses, Before, Callback;
      SafeRunsNeverDangle(Step(s, es[0]), es[1..]);
    }
  }

  /** In particular from the start. */
  lemma NothingLeftBehind(es: seq<Event>)
    requires SafeRun(Init(), es)
    ensures !Run(Init(), es).dangling
  {
    InitInv();
    assert AllLive(Init());
    SafeRunsNeverDangle(Init(), es);
  }
}
