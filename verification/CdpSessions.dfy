/** What goes on the wire, and when: from a stopped manager to a connected one. */
module CdpSessions {
  import opened CdpModel
  import opened CdpInvariants
  import opened CdpReplies
  import opened CdpTheorems
  import opened CdpCallbacks
  import opened CdpScenarios

  /** Everything passed to sendText, and after it everything waiting to be. */
  function Outbox(m: Mux): seq<Msg> {
    m.wire + m.queue
  }

  // ---- the commands of the operations ----

  lemma IssueOutbox(m: Mux, h: Handler, name: Method, session: string, arg: string)
    requires WireOk(m)
    ensures Outbox(Issue(m, h, name, session, arg)) == Outbox(m) + [Msg(m.cmdId, name, session, arg)]
  {
    assert m.wire + m.queue + [Msg(m.cmdId, name, session, arg)] == m.wire + (m.queue + [Msg(m.cmdId, name, session, arg)]);
    assert m.wsReady ==> m.wire + [] == m.wire;
  }

  /** A command of the caller's own, to the browser or to the session of a context. */
  lemma CommandSent(s: Mgr, x: nat, checked: bool, tag: nat, inner: seq<Act>)
    requires WireOk(s.mux)
    ensures var t := RunAct(s, Send(tag));
            && Outbox(t.mux) == Outbox(s.mux) + [Msg(s.mux.cmdId, Other, "", "")]
            && t.mux.pending == s.mux.pending[s.mux.cmdId := User(tag)] && t.pool == s.pool
    ensures Usable(s.pool, x) && !(checked && s.pool.heap[x].closed) ==>
              var t := RunAct(s, Operate(x, checked, tag, inner));
              && Outbox(t.mux) == Outbox(s.mux) + [Msg(s.mux.cmdId, Other, s.pool.heap[x].session, "")]
              && t.mux.pending == s.mux.pending[s.mux.cmdId := User(tag)] && t.pool == s.pool
  {
    IssueOutbox(s.mux, User(tag), Other, "", "");
    if Usable(s.pool, x) { IssueOutbox(s.mux, User(tag), Other, s.pool.heap[x].session, ""); }
    hide WireOk, Outbox;
  }

  /** close marks the context closed and asks the browser to close its target. */
  lemma CloseSent(s: Mgr, x: nat, inner: seq<Act>)
    requires WireOk(s.mux) && Usable(s.pool, x) && !s.pool.heap[x].closed
    ensures var t := RunAct(s, CloseContext(x, inner));
            && Outbox(t.mux) == Outbox(s.mux) + [Msg(s.mux.cmdId, CloseTarget, "", s.pool.heap[x].target)]
            && t.mux.pending == s.mux.pending[s.mux.cmdId := Close(x)]
            && x in t.pool.heap && t.pool.heap[x] == s.pool.heap[x].(closed := true)
            && (forall y :: y in s.pool.heap && y != x ==> y in t.pool.heap && t.pool.heap[y] == s.pool.heap[y])
  {
    IssueOutbox(s.mux, Close(x), CloseTarget, "", s.pool.heap[x].target);
    hide WireOk, Outbox;
  }

  /** after changes nothing but the context's flags and the armed callbacks, of which there is one more. */
  lemma AfterArms(s: Mgr, x: nat)
    requires Usable(s.pool, x)
    ensures var t, g := RunAct(s, After(x)), |s.timers.alive|;
            && t.mux == s.mux && t.timers.armed == s.timers.armed + {g} && t.timers.alive == s.timers.alive + [true]
            && t.timers.owner == s.timers.owner + [x] && t.pool.heap.Keys == s.pool.heap.Keys && t.dangling == s.dangling
            && x in t.pool.heap && t.pool.heap[x] == s.pool.heap[x].(guards := s.pool.heap[x].guards + {g})
  {
  }

  /** The wait goes on: its context is open and its deadline has not passed. */
  ghost predicate GoesOn(s: Mgr, w: nat, clock: nat) {
    && w < |s.poller.waits| && s.poller.waits[w].ctx in s.pool.heap && !s.pool.heap[s.poller.waits[w].ctx].closed
    && !Expired(s.poller.waits[w], clock)
  }

  lemma Waiting(s: Mgr, w: nat)
    requires Inv(s) && (w in s.poller.posted || exists id :: CarriesWait(s.mux, id, w))
    ensures WireOk(s.mux) && w < |s.poller.waits| == |s.poller.polls| && !s.poller.waits[w].done
  {
    PolledEqually(s);
    DoneGuardsNeverTaken(s, w);
    hide CarriesWait;
  }

  lemma WireSame(m: Mux, n: Mux)
    requires WireOk(m) && n == m.(answered := n.answered)
    ensures WireOk(n)
  {
  }

  // ---- everything that replies and calls send ----

  /** The messages that a reply to a pending command makes the manager send, besides those of the
      caller's own callback. */
  ghost function Sent(s: Mgr, id: int, ok: bool, data: Payload, dt: nat): seq<Msg>
    requires id in s.mux.pending
  {
    var n := s.mux.cmdId;
    match s.mux.pending[id]
    case Create(_, _) => if ok then [Msg(n, AttachToTarget, "", data.text)] else []
    case Attach(_, _, _) =>
      if ok then [Msg(n, AddInitScript, data.text, ""), Msg(n + 1, PageEnable, data.text, "")] else []
    case KeyDown(x, _) =>
      if ok && x in s.pool.heap then [Msg(n, DispatchKey, s.pool.heap[x].session, "keyUp")] else []
    case Poll(w) =>
      if !(ok && data.found) && GoesOn(s, w, s.clock + dt)
      then [Msg(n, Evaluate, s.pool.heap[s.poller.waits[w].ctx].session, s.poller.waits[w].css)]
      else []
    case _ => []
  }

  lemma NothingMore(m: Mux)
    ensures Outbox(m) + [] == Outbox(m)
  {
  }

  lemma AttachedOutbox(s: Mgr, c: nat, q: string, target: string, session: string)
    requires WireOk(s.mux)
    ensures var n := s.mux.cmdId;
            Outbox(Attached(s, c, q, target, session).mux)
            == Outbox(s.mux) + [Msg(n, AddInitScript, session, ""), Msg(n + 1, PageEnable, session, "")]
  {
    var m1 := Issue(s.mux, AddScript(c, q, s.pool.nextPtr), AddInitScript, session, "");
    var m2 := Issue(m1, Noop, PageEnable, session, "");
    assert Attached(s, c, q, target, session).mux == m2;
    IssueOutbox(s.mux, AddScript(c, q, s.pool.nextPtr), AddInitScript, session, "");
    assert m1.wsReady ==> m1.queue == [];
    assert Outbox(m2) == Outbox(m1) + [Msg(m1.cmdId, PageEnable, session, "")] by {
      hide WireOk;
      assert m1.wire + m1.queue + [Msg(m1.cmdId, PageEnable, session, "")]
          == m1.wire + (m1.queue + [Msg(m1.cmdId, PageEnable, session, "")]);
    }
    hide WireOk, Outbox;
    assert Outbox(s.mux) + [Msg(s.mux.cmdId, AddInitScript, session, "")] + [Msg(s.mux.cmdId + 1, PageEnable, session, "")]
        == Outbox(s.mux) + [Msg(s.mux.cmdId, AddInitScript, session, ""), Msg(s.mux.cmdId + 1, PageEnable, session, "")];
  }

  lemma CheckOutbox(s: Mgr, w: nat)
    requires WireOk(s.mux) && (w < |s.poller.waits| ==> w < |s.poller.polls| && !s.poller.waits[w].done)
    ensures Outbox(Check(s, w).mux) == Outbox(s.mux) +
            if GoesOn(s, w, s.clock)
            then [Msg(s.mux.cmdId, Evaluate, s.pool.heap[s.poller.waits[w].ctx].session, s.poller.waits[w].css)]
            else []
  {
    NothingMore(s.mux);
    if GoesOn(s, w, s.clock) {
      var v := s.poller.waits[w];
      IssueOutbox(s.mux, Poll(w), Evaluate, s.pool.heap[v.ctx].session, v.css);
    }
    hide WireOk, Outbox, Expired;
  }

  /** What the handler itself sends. */
  lemma ReactOutbox(s: Mgr, id: int, ok: bool, data: Payload)
    requires WireOk(s.mux) && id in s.mux.pending
    requires var h := s.mux.pending[id];
             h.Poll? ==> h.wait < |s.poller.waits| == |s.poller.polls| && !s.poller.waits[h.wait].done
    ensures Outbox(React(s, s.mux.pending[id], ok, data).mux) == Outbox(s.mux) + Sent(s, id, ok, data, 0)
  {
    hide Attached, Check, GoesOn, ClearGuards, Issue;
    NothingMore(s.mux);
    match s.mux.pending[id]
    case Create(c, q) => IssueOutbox(s.mux, Attach(c, q, data.text), AttachToTarget, "", data.text);
    case Attach(c, q, target) => AttachedOutbox(s, c, q, target, data.text);
    case KeyDown(x, tag) =>
      if x in s.pool.heap { IssueOutbox(s.mux, User(tag), DispatchKey, s.pool.heap[x].session, "keyUp"); }
    case Poll(w) => CheckOutbox(s, w);
    case _ =>
  }

  /** A reply makes the manager send exactly these messages, in this order. */
  lemma ReplySends(s: Mgr, id: int, ok: bool, data: Payload, dt: nat)
    requires Inv(s) && id in s.mux.pending
    ensures Outbox(Step(s, Reply(id, ok, data, dt, [])).mux) == Outbox(s.mux) + Sent(s, id, ok, data, dt)
  {
    hide Inv, React, WireOk, Outbox, Sent;
    var s1 := Answer(Tick(s, dt, true), id, ok);
    var h := s.mux.pending[id];
    if h.Poll? {
      assert CarriesWait(s.mux, id, h.wait);
      Waiting(s, h.wait);
    }
    IsWireOk(s);
    WireSame(s.mux, s1.mux);
    ReactOutbox(s1, id, ok, data);
    SentLater(s, id, ok, data, dt);
    StepSplits(s, Reply(id, ok, data, dt, []));
    assert RunActs(React(s1, h, ok, data), []) == React(s1, h, ok, data);
    OutboxErased(React(s1, h, ok, data), id);
    OutboxAnswered(s, s1);
  }

  lemma IsWireOk(s: Mgr)
    requires Inv(s)
    ensures WireOk(s.mux)
  {
  }

  lemma SentLater(s: Mgr, id: int, ok: bool, data: Payload, dt: nat)
    requires id in s.mux.pending
    ensures Sent(Answer(Tick(s, dt, true), id, ok), id, ok, data, 0) == Sent(s, id, ok, data, dt)
  {
  }

  lemma OutboxErased(s: Mgr, id: int)
    ensures Outbox(Erase(s, id).mux) == Outbox(s.mux)
  {
  }

  lemma OutboxAnswered(s: Mgr, t: Mgr)
    requires t.mux == s.mux.(answered := t.mux.answered)
    ensures Outbox(t.mux) == Outbox(s.mux)
  {
  }

  /** A posted check sends the evaluate of its wait exactly when the wait goes on. */
  lemma CheckSends(s: Mgr, w: nat, dt: nat)
    requires Inv(s)
    ensures Outbox(Step(s, Checked(w, dt, [])).mux) == Outbox(s.mux) +
            if w in s.poller.posted && GoesOn(s, w, s.clock + dt)
            then [Msg(s.mux.cmdId, Evaluate, s.pool.heap[s.poller.waits[w].ctx].session, s.poller.waits[w].css)]
            else []
  {
    hide Inv, Check, WireOk, Outbox, CheckTimesOut, Expired;
    NothingMore(s.mux);
    if w in s.poller.posted {
      var s1 := Unpost(Tick(s, dt, false), w);
      Waiting(s, w);
      CheckOutbox(s1, w);
      assert RunActs(Check(s1, w), []) == Check(s1, w);
    }
  }

  /** The message, or none, that a call sends before any callback of its own runs. */
  ghost function SentByCall(s: Mgr, a: Act): seq<Msg> {
    var n := s.mux.cmdId;
    match a
    case Send(_) => [Msg(n, Other, "", "")]
    case GetContext(q, _) => if s.started && q !in s.pool.contexts then [Msg(n, CreateTarget, "", "")] else []
    case Operate(x, checked, _, _) =>
      if Usable(s.pool, x) && !(checked && s.pool.heap[x].closed) then [Msg(n, Other, s.pool.heap[x].session, "")] else []
    case PressKey(x, _, _) =>
      if Usable(s.pool, x) && !s.pool.heap[x].closed then [Msg(n, DispatchKey, s.pool.heap[x].session, "keyDown")] else []
    case CloseContext(x, _) =>
      if Usable(s.pool, x) && !s.pool.heap[x].closed then [Msg(n, CloseTarget, "", s.pool.heap[x].target)] else []
    case _ => []
  }

  /** Every call but start(), which drops what is queued, sends exactly that. */
  lemma CallSends(s: Mgr, a: Act)
    requires WireOk(s.mux) && !a.StartManager?
    requires AtOnce(s, a) ==> a.inner == []
    ensures Outbox(RunAct(s, a).mux) == Outbox(s.mux) + SentByCall(s, a)
  {
    hide WireOk, ClearGuards;
    NothingMore(s.mux);
    if AtOnce(s, a) { assert RunActs(Enter(s, a), a.inner) == Enter(s, a); }
    match a
    case Send(tag) => IssueOutbox(s.mux, User(tag), Other, "", "");
    case GetContext(q, _) => IssueOutbox(s.mux, Create(|s.book.calls|, q), CreateTarget, "", "");
    case Operate(x, checked, tag, _) =>
      if Usable(s.pool, x) { IssueOutbox(s.mux, User(tag), Other, s.pool.heap[x].session, ""); }
    case PressKey(x, tag, _) =>
      if Usable(s.pool, x) { IssueOutbox(s.mux, KeyDown(x, tag), DispatchKey, s.pool.heap[x].session, "keyDown"); }
    case CloseContext(x, _) =>
      if Usable(s.pool, x) { IssueOutbox(s.mux, Close(x), CloseTarget, "", s.pool.heap[x].target); }
    case _ =>
  }

  // ---- when the socket is ready ----

  /** Among the calls of a callback is a start() of the manager that is not started, which resets the
      connection. */
  ghost predicate Resets(s: Mgr, acts: seq<Act>)
    decreases acts, 0
  {
    acts != [] && (ResetsOne(s, acts[0]) || Resets(RunAct(s, acts[0]), acts[1..]))
  }

  ghost predicate ResetsOne(s: Mgr, a: Act)
    decreases a, 1
  {
    (a.StartManager? && !s.started) || (AtOnce(s, a) && Resets(Enter(s, a), a.inner))
  }

  lemma EnterReady(s: Mgr, a: Act)
    ensures Enter(s, a).mux.wsReady <==> s.mux.wsReady && !(a.StartManager? && !s.started)
  {
    hide ClearGuards, Usable;
  }

  lemma ActsReady(s: Mgr, acts: seq<Act>)
    ensures RunActs(s, acts).mux.wsReady <==> s.mux.wsReady && !Resets(s, acts)
    decreases acts, 0
  {
    if acts != [] {
      ActReady(s, acts[0]);
      hide RunAct, ResetsOne;
      ActsReady(RunAct(s, acts[0]), acts[1..]);
    }
  }

  lemma ActReady(s: Mgr, a: Act)
    ensures RunAct(s, a).mux.wsReady <==> s.mux.wsReady && !ResetsOne(s, a)
    decreases a, 1
  {
    EnterReady(s, a);
    hide Enter;
    if AtOnce(s, a) { ActsReady(Enter(s, a), a.inner); }
  }

  lemma ReactReady(s: Mgr, h: Handler, ok: bool, data: Payload)
    ensures React(s, h, ok, data).mux.wsReady == s.mux.wsReady
  {
    hide ClearGuards, Check, Attached;
    if h.Attach? { AttachedReady(s, h.call, h.platform, h.target, data.text); }
    if h.Poll? { CheckReady(s, h.wait); }
  }

  lemma AttachedReady(s: Mgr, c: nat, q: string, target: string, session: string)
    ensures Attached(s, c, q, target, session).mux.wsReady == s.mux.wsReady
  {
  }

  lemma CheckReady(s: Mgr, w: nat)
    ensures Check(s, w).mux.wsReady == s.mux.wsReady
  {
  }

  lemma BeforeReady(s: Mgr, e: Event)
    ensures Before(s, e).mux.wsReady <==> e.Opened? || (s.mux.wsReady && !(e.Start? && !s.started))
  {
    hide React, Check, ClearGuards;
    match e
    case Reply(id, ok, data, dt, acts) =>
      if id in s.mux.pending { ReactReady(Answer(Tick(s, dt, true), id, ok), s.mux.pending[id], ok, data); }
    case Checked(w, dt, acts) => CheckReady(Unpost(Tick(s, dt, false), w), w);
    case _ =>
  }

  /** start() of a manager that is not started, by the program or by a callback. */
  ghost predicate Restarts(s: Mgr, e: Event) {
    (e.Start? && !s.started) || Resets(Before(s, e), Callback(s, e))
  }

  /** The socket becomes ready exactly by opening, and ceases to be exactly by such a start(). */
  lemma ReadyIff(s: Mgr, e: Event)
    ensures Step(s, e).mux.wsReady <==> (e.Opened? || s.mux.wsReady) && !Restarts(s, e)
  {
    BeforeReady(s, e);
    StepSplits(s, e);
    hide Before, Callback, Step;
    ActsReady(Before(s, e), Callback(s, e));
  }

  ghost predicate NeverRestarts(s: Mgr, es: seq<Event>)
    decreases es
  {
    es == [] || (!Restarts(s, es[0]) && NeverRestarts(Step(s, es[0]), es[1..]))
  }

  lemma RunReady(s: Mgr, es: seq<Event>)
    requires s.mux.wsReady && NeverRestarts(s, es)
    ensures Run(s, es).mux.wsReady
    decreases es
  {
    if es != [] {
      ReadyIff(s, es[0]);
      hide Step, Restarts;
      RunReady(Step(s, es[0]), es[1..]);
    }
  }

  // ---- what was sent stays sent ----

  lemma ReactSends(s: Mgr, h: Handler, ok: bool, data: Payload)
    ensures s.mux.wire <= React(s, h, ok, data).mux.wire
  {
    ReactMux(s, h, ok, data);
    hide React;
  }

  lemma StepSends(s: Mgr, e: Event)
    ensures s.mux.wire <= Step(s, e).mux.wire
  {
    BeforeSends(s, e);
    StepFrame(s, e);
    hide Before, Step;
  }

  lemma BeforeSends(s: Mgr, e: Event)
    ensures s.mux.wire <= Before(s, e).mux.wire
  {
    hide React, Check, ClearGuards;
    match e
    case Reply(id, ok, data, dt, acts) =>
      if id in s.mux.pending { ReactSends(Answer(Tick(s, dt, true), id, ok), s.mux.pending[id], ok, data); }
    case Checked(w, dt, acts) => CheckMux(Unpost(Tick(s, dt, false), w), w);
    case _ =>
  }

  lemma RunSends(s: Mgr, es: seq<Event>)
    ensures s.mux.wire <= Run(s, es).mux.wire
    decreases es
  {
    if es != [] {
      StepSends(s, es[0]);
      hide Step;
      RunSends(Step(s, es[0]), es[1..]);
    }
  }

  /** Opening sends what was queued offline, in order and before anything later, and from then on every
      command is sent as soon as it is issued, until a start() of the stopped manager. */
  lemma OpenDelivers(s: Mgr, es: seq<Event>)
    requires Inv(s) && NeverRestarts(Step(s, Opened), es)
    ensures var t := Run(Step(s, Opened), es);
            && t.mux.wsReady && t.mux.queue == [] && s.mux.wire + s.mux.queue <= t.mux.wire
            && forall i :: s.mux.cmdId <= i < t.mux.cmdId ==> i in Ids(t.mux.wire)
  {
    var s1 := Step(s, Opened);
    var t := Run(s1, es);
    StepInv(s, Opened);
    RunInv(s1, es);
    BeforeReady(s, Opened);
    RunReady(s1, es);
    RunSends(s1, es);
    assert s.mux.wire + s.mux.queue <= s1.mux.wire && s1.mux.dropped == s.mux.dropped;
    DroppedBelow(s);
    NothingDropped(s1, es);
    assert WireOk(t.mux);
    hide Inv, Run, NeverRestarts, Step;
    assert t.mux.wire + [] == t.mux.wire;
  }

  lemma DroppedBelow(s: Mgr)
    requires Inv(s)
    ensures forall i :: i in s.mux.dropped ==> i < s.mux.cmdId
  {
  }

  lemma NothingDropped(s: Mgr, es: seq<Event>)
    requires NeverRestarts(s, es)
    ensures Run(s, es).mux.dropped == s.mux.dropped
    decreases es
  {
    if es != [] {
      StepDropped(s, es[0]);
      hide Step, Restarts;
      NothingDropped(Step(s, es[0]), es[1..]);
    }
  }

  lemma StepDropped(s: Mgr, e: Event)
    requires !Restarts(s, e)
    ensures Step(s, e).mux.dropped == s.mux.dropped
  {
    BeforeDropped(s, e);
    StepSplits(s, e);
    hide Before, Callback, Step;
    ActsDropped(Before(s, e), Callback(s, e));
  }

  lemma BeforeDropped(s: Mgr, e: Event)
    requires !(e.Start? && !s.started)
    ensures Before(s, e).mux.dropped == s.mux.dropped
  {
    hide React, Check, ClearGuards;
    match e
    case Reply(id, ok, data, dt, acts) =>
      if id in s.mux.pending { ReactDropped(Answer(Tick(s, dt, true), id, ok), s.mux.pending[id], ok, data); }
    case Checked(w, dt, acts) => CheckDropped(Unpost(Tick(s, dt, false), w), w);
    case _ =>
  }

  lemma CheckDropped(s: Mgr, w: nat)
    ensures Check(s, w).mux.dropped == s.mux.dropped
  {
  }

  lemma ReactDropped(s: Mgr, h: Handler, ok: bool, data: Payload)
    ensures React(s, h, ok, data).mux.dropped == s.mux.dropped
  {
    hide ClearGuards, Check;
    if h.Poll? { CheckDropped(s, h.wait); }
  }

  lemma ActsDropped(s: Mgr, acts: seq<Act>)
    requires !Resets(s, acts)
    ensures RunActs(s, acts).mux.dropped == s.mux.dropped
    decreases acts, 0
  {
    if acts != [] {
      ActDropped(s, acts[0]);
      hide RunAct, ResetsOne;
      ActsDropped(RunAct(s, acts[0]), acts[1..]);
    }
  }

  lemma ActDropped(s: Mgr, a: Act)
    requires !ResetsOne(s, a)
    ensures RunAct(s, a).mux.dropped == s.mux.dropped
    decreases a, 1
  {
    EnterDropped(s, a);
    hide Enter;
    if AtOnce(s, a) { ActsDropped(Enter(s, a), a.inner); }
  }

  lemma EnterDropped(s: Mgr, a: Act)
    requires !(a.StartManager? && !s.started)
    ensures Enter(s, a).mux.dropped == s.mux.dropped
  {
    hide ClearGuards, Usable;
  }

  // ---- when the manager is started ----

  /** Among the calls of a callback is a stop(). */
  ghost predicate Stops(s: Mgr, acts: seq<Act>)
    decreases acts, 0
  {
    acts != [] && (StopsOne(s, acts[0]) || Stops(RunAct(s, acts[0]), acts[1..]))
  }

  ghost predicate StopsOne(s: Mgr, a: Act)
    decreases a, 1
  {
    a.StopManager? || (AtOnce(s, a) && Stops(Enter(s, a), a.inner))
  }

  lemma EnterStarted(s: Mgr, a: Act)
    ensures Enter(s, a).started <==> s.started && !a.StopManager?
  {
    hide ClearGuards, Usable, Issue;
  }

  lemma ActsStarted(s: Mgr, acts: seq<Act>)
    ensures RunActs(s, acts).started <==> s.started && !Stops(s, acts)
    decreases acts, 0
  {
    if acts != [] {
      ActStarted(s, acts[0]);
      hide RunAct, StopsOne;
      ActsStarted(RunAct(s, acts[0]), acts[1..]);
    }
  }

  lemma ActStarted(s: Mgr, a: Act)
    ensures RunAct(s, a).started <==> s.started && !StopsOne(s, a)
    decreases a, 1
  {
    EnterStarted(s, a);
    hide Enter;
    if AtOnce(s, a) { ActsStarted(Enter(s, a), a.inner); }
  }

  lemma BeforeStarted(s: Mgr, e: Event)
    ensures Before(s, e).started <==> (s.started && !e.Stop?) || (e.Launched? && e.good)
  {
    hide React, Check, ClearGuards;
    match e
    case Reply(id, ok, data, dt, acts) =>
      if id in s.mux.pending { ReactStarted(Answer(Tick(s, dt, true), id, ok), s.mux.pending[id], ok, data); }
    case Checked(w, dt, acts) => CheckLeaves(Unpost(Tick(s, dt, false), w), w);
    case _ =>
  }

  lemma ReactStarted(s: Mgr, h: Handler, ok: bool, data: Payload)
    ensures React(s, h, ok, data).started == s.started
  {
    hide ClearGuards, Check, Issue;
    if h.Poll? { CheckLeaves(s, h.wait); }
  }

  /** The manager becomes started exactly by a launch that went well, not by start() itself, and ceases
      to be exactly by stop(). */
  lemma StartedIff(s: Mgr, e: Event)
    ensures Step(s, e).started <==>
            ((s.started && !e.Stop?) || (e.Launched? && e.good)) && !Stops(Before(s, e), Callback(s, e))
  {
    BeforeStarted(s, e);
    StepSplits(s, e);
    hide Before, Callback, Step;
    ActsStarted(Before(s, e), Callback(s, e));
  }

  // ---- a session from its start ----

  /** From any stopped manager: start(), a launch that goes well, a get_context while the socket is not
      open yet, and the open socket.  The request goes out first, Page.enable after it, the three replies
      complete the acquisition, and the caller gets the new, open context. */
  lemma FirstSession(s: Mgr, q: string, target: string, session: string,
                     s1: Mgr, s2: Mgr, s3: Mgr, s4: Mgr, s5: Mgr, s6: Mgr, s7: Mgr)
    requires Inv(s) && !s.started && q !in s.pool.contexts
    requires s1 == Step(s, Start) && s2 == Step(s1, Launched(true)) && s3 == Step(s2, Call([GetContext(q, [])]))
    requires s4 == Step(s3, Opened)
    requires s5 == Step(s4, Success(s.mux.cmdId, target)) && s6 == Step(s5, Success(s.mux.cmdId + 2, session))
    requires s7 == Step(s6, Success(s.mux.cmdId + 3, ""))
    ensures var n, c, x := s.mux.cmdId, |s.book.calls|, s.pool.nextPtr;
            && s7.started && s7.mux.wsReady
            && s7.mux.wire == s.mux.wire + [Msg(n, CreateTarget, "", ""), Msg(n + 1, PageEnable, "", "")]
                                         + [Msg(n + 2, AttachToTarget, "", target)]
                                         + [Msg(n + 3, AddInitScript, session, ""), Msg(n + 4, PageEnable, session, "")]
            && s7.pool.contexts == s.pool.contexts[q := x]
            && x in s7.pool.heap && s7.pool.heap[x] == Ctx(q, target, session, false, {})
            && s7.book.got == s.book.got + multiset{c} && s7.book.result == s.book.result[c := x]
  {
    hide *;
    var n, c, x := s.mux.cmdId, |s.book.calls|, s.pool.nextPtr;
    Idle(s);
    LaunchSteps(s, s1, s2);
    CallOne(s2, GetContext(q, []));
    QueuedStep(s2, q);
    OpenedStep(s3);
    CreatedStep(s4, n, c, q, target);
    AttachedStep(s5, n + 2, c, q, target, session);
    ScriptedStep(s6, n + 3, c, q, x);
  }

  lemma Idle(s: Mgr)
    requires Inv(s)
    ensures 0 <= s.mux.cmdId
  {
  }

  lemma LaunchSteps(s: Mgr, s1: Mgr, s2: Mgr)
    requires !s.started && s1 == Step(s, Start) && s2 == Step(s1, Launched(true))
    ensures s2.started && !s2.mux.wsReady && s2.mux.queue == [] && s2.mux.wire == s.mux.wire
    ensures s2.mux.cmdId == s.mux.cmdId && s2.mux.pending == s.mux.pending && s2.pool == s.pool && s2.book == s.book
  {
  }

  lemma QueuedStep(s: Mgr, q: string)
    requires s.started && !s.mux.wsReady && q !in s.pool.contexts && s.mux.queue == []
    ensures var t := RunAct(s, GetContext(q, [])); var n := s.mux.cmdId;
            && t.started && t.mux.cmdId == n + 1 && t.mux.pending == s.mux.pending[n := Create(|s.book.calls|, q)]
            && t.mux.wire == s.mux.wire && t.mux.queue == [Msg(n, CreateTarget, "", "")]
            && t.pool == s.pool && t.book.got == s.book.got && t.book.result == s.book.result
  {
  }

  lemma OpenedStep(s: Mgr)
    ensures var t := Step(s, Opened); var n := s.mux.cmdId;
            && t.mux.wsReady && t.mux.cmdId == n + 1 && t.mux.pending == s.mux.pending[n := Noop]
            && t.mux.wire == s.mux.wire + (s.mux.queue + [Msg(n, PageEnable, "", "")])
            && t.pool == s.pool && t.book == s.book && t.started == s.started
  {
    assert s.mux.wire + s.mux.queue + [Msg(s.mux.cmdId, PageEnable, "", "")]
        == s.mux.wire + (s.mux.queue + [Msg(s.mux.cmdId, PageEnable, "", "")]);
  }
}
