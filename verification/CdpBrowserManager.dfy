/** The browser manager with its mutable fields, proved against the transition functions. */
module CdpBrowserManager {
  import opened CdpModel
  import opened CdpInvariants
  import opened CdpPreservation
  import opened CdpReplies

  // ---- clearing the cache one context at a time ----

  function CachedAs(p: Pool, qs: set<string>): set<nat> {
    set q | q in qs && q in p.contexts :: p.contexts[q]
  }

  /** In s' the contexts that s caches under the platforms `qs` have been deleted. */
  ghost predicate Cleared(s: Mgr, qs: set<string>, s': Mgr) {
    && s'.pool == s.pool.(heap := s.pool.heap - CachedAs(s.pool, qs), freed := s.pool.freed + multiset(CachedAs(s.pool, qs)))
    && s'.timers == ClearGuards(s.timers, s.pool.heap, CachedAs(s.pool, qs))
  }

  lemma NoneCleared(s: Mgr)
    ensures Cleared(s, {}, s)
  {
    assert CachedAs(s.pool, {}) == {};
    assert ClearGuards(s.timers, s.pool.heap, {}).alive == s.timers.alive;
  }

  lemma ClearedMore(s: Mgr, qs: set<string>, q: string, s': Mgr)
    requires Cleared(s, qs, s') && CacheOk(s.pool) && GuardsOk(s.pool, s.timers)
    requires q in s.pool.contexts && q !in qs
    ensures var x := s.pool.contexts[q];
            && x in s'.pool.heap && (forall g: nat :: g in s'.pool.heap[x].guards ==> g < |s'.timers.alive|)
            && Cleared(s, qs + {q}, Destroy(s', x))
  {
    var x := s.pool.contexts[q];
    var gone := CachedAs(s.pool, qs);
    assert x !in gone && s'.pool.heap[x] == s.pool.heap[x];
    assert CachedAs(s.pool, qs + {q}) == gone + {x};
    assert multiset(gone + {x}) == multiset(gone) + multiset{x};
    assert s.pool.heap - (gone + {x}) == s.pool.heap - gone - {x};
    var alive := Destroy(s', x).timers.alive;
    var want := ClearGuards(s.timers, s.pool.heap, gone + {x}).alive;
    forall g | 0 <= g < |s.timers.alive| ensures alive[g] == want[g] {
      if alive[g] {
        assert forall y :: y in gone && y in s.pool.heap ==> g !in s.pool.heap[y].guards;
      }
    }
    assert alive == want;
  }

  lemma AllCleared(s: Mgr, s': Mgr)
    requires Cleared(s, s.pool.contexts.Keys, s') && s' == s.(pool := s'.pool, timers := s'.timers)
    ensures s'.(pool := s'.pool.(contexts := map[])) == ClearContexts(s)
  {
    assert CachedAs(s.pool, s.pool.contexts.Keys) == s.pool.contexts.Values;
  }

  class Manager {
    var cmdId: int
    var started: bool
    var wsReady: bool
    var pending: map<int, Handler>
    var pendingCommands: seq<Msg>
    var sent: seq<Msg>            // what ws_.sendText was given
    var contexts: map<string, nat>
    var heap: map<nat, Ctx>       // the context objects, by address
    var nextPtr: nat              // the next address
    var waits: seq<Wait>          // the shared state of the wait_for_selector closures
    var posted: multiset<nat>     // checks handed to the scheduler by post
    var armed: set<nat>           // callbacks handed to the scheduler by after
    var alive: seq<bool>          // their shared flags
    var clock: nat
    var nextCall: nat             // names the callbacks of the next get_context call
    ghost var State: Mgr          // the fields above, with the history

    /** The fields are those of State. */
    ghost predicate Tied()
      reads this
    {
      && cmdId == State.mux.cmdId && started == State.started && wsReady == State.mux.wsReady
      && pending == State.mux.pending && pendingCommands == State.mux.queue && sent == State.mux.wire
      && contexts == State.pool.contexts && heap == State.pool.heap && nextPtr == State.pool.nextPtr
      && waits == State.poller.waits && posted == State.poller.posted
      && armed == State.timers.armed && alive == State.timers.alive && clock == State.clock
      && nextCall == |State.book.calls|
    }

    ghost predicate Valid()
      reads this
    {
      Tied() && Inv(State)
    }

    constructor ()
      ensures Valid() && State == Init()
    {
      cmdId, started, wsReady, pending, pendingCommands, sent := 0, false, false, map[], [], [];
      contexts, heap, nextPtr, waits, posted, armed, alive, clock := map[], map[], 0, [], multiset{}, {}, [], 0;
      nextCall := 0;
      State := Init();
      new;
      InitInv();
    }

    // ---- sending ----

    method Send(h: Handler, name: Method, session: string, arg: string)
      requires Tied()
      modifies this
      ensures Tied() && State == SendCommand(old(State), h, name, session, arg)
    {
      State := SendCommand(State, h, name, session, arg);
      var id := cmdId;
      cmdId := cmdId + 1;
      var msg := Msg(id, name, session, arg);
      pending := pending[id := h];
      if !wsReady {
        pendingCommands := pendingCommands + [msg];
        return;
      }
      sent := sent + [msg];
    }

    method SendFor(c: nat, h: Handler, name: Method, session: string, arg: string)
      requires Tied()
      modifies this
      ensures Tied() && State == SendForCall(old(State), c, h, name, session, arg)
    {
      State := State.(book := State.book.(callCmd := State.book.callCmd[c := cmdId]));
      Send(h, name, session, arg);
    }

    // ---- contexts ----

    /** delete: the destructor clears the guards one by one. */
    method Delete(x: nat)
      requires Tied() && x in heap && forall g: nat :: g in heap[x].guards ==> g < |alive|
      modifies this
      ensures Tied() && State == Destroy(old(State), x)
    {
      var todo := heap[x].guards;
      while todo != {}
        invariant unchanged(`cmdId, `started, `wsReady, `pending, `pendingCommands, `sent, `contexts, `heap, `nextPtr)
        invariant unchanged(`waits, `posted, `armed, `clock, `nextCall, `State)
        invariant todo <= heap[x].guards && |alive| == |old(alive)|
        invariant forall g :: 0 <= g < |alive| ==> alive[g] == (old(alive)[g] && g !in heap[x].guards - todo)
        decreases todo
      {
        var g :| g in todo;
        alive := alive[g := false];
        todo := todo - {g};
      }
      assert alive == ClearGuards(State.timers, heap, {x}).alive;
      heap := heap - {x};
      State := Destroy(State, x);
    }

    /** contexts_.erase(platform) */
    method RemoveFromCache(q: string)
      requires Tied() && CacheOk(State.pool) && GuardsOk(State.pool, State.timers)
      modifies this
      ensures Tied() && State == RemoveContext(old(State), q)
    {
      if q in contexts {
        var x := contexts[q];
        contexts := contexts - {q};
        State := State.(pool := State.pool.(contexts := contexts));
        Delete(x);
      }
    }

    /** contexts_.clear(), one destructor at a time. */
    method DeleteCached()
      requires Tied() && CacheOk(State.pool) && GuardsOk(State.pool, State.timers)
      modifies this
      ensures Tied() && contexts == old(contexts)
      ensures State == old(State).(pool := State.pool, timers := State.timers)
      ensures Cleared(old(State), old(contexts).Keys, State)
    {
      hide Cleared, CacheOk, GuardsOk;
      ghost var s := State;
      var todo := contexts.Keys;
      ghost var done: set<string> := {};
      NoneCleared(s);
      while todo != {}
        invariant done + todo == s.pool.contexts.Keys && done !! todo
        invariant Tied() && State == s.(pool := State.pool, timers := State.timers)
        invariant Cleared(s, done, State) && State.pool.contexts == s.pool.contexts
        decreases todo
      {
        var q :| q in todo;
        ClearedMore(s, done, q, State);
        Delete(contexts[q]);
        todo, done := todo - {q}, done + {q};
      }
      assert done == s.pool.contexts.Keys;
    }

    method ClearCache()
      requires Tied() && CacheOk(State.pool) && GuardsOk(State.pool, State.timers)
      modifies this
      ensures Tied() && State == ClearContexts(old(State))
    {
      hide Cleared, CacheOk, GuardsOk, ClearContexts;
      DeleteCached();
      AllCleared(old(State), State);
      contexts := map[];
      State := State.(pool := State.pool.(contexts := map[]));
    }

    // ---- get_context ----

    /** do_get_context: on a cache hit or when not started the caller's callback runs next. */
    method DoGetContext(q: string) returns (atOnce: bool)
      requires Tied()
      modifies this
      ensures Tied() && State == AskContext(old(State), q) && atOnce == AnswersAtOnce(old(State), q)
    {
      var c := nextCall;
      nextCall := nextCall + 1;
      ghost var s1 := State.(book := State.book.(calls := State.book.calls + [q]));
      if !started {
        State := Fail(s1, c);
        return true;
      }
      if q in contexts {
        State := Deliver(s1, c, contexts[q]);
        return true;
      }
      State := s1;
      SendFor(c, Create(c, q), CreateTarget, "", "");
      return false;
    }

    /** The continuation of attachToTarget. */
    method OnAttached(c: nat, q: string, target: string, session: string)
      requires Tied()
      modifies this
      ensures Tied() && State == Attached(old(State), c, q, target, session)
    {
      var x := nextPtr;
      State := Allocate(State, Ctx(q, target, session, false, {}));
      heap := heap[x := Ctx(q, target, session, false, {})];
      nextPtr := nextPtr + 1;
      SendFor(c, AddScript(c, q, x), AddInitScript, session, "");
      Send(Noop, PageEnable, session, "");
    }

    // ---- context operations ----

    /** CdpBrowserContext::close on an open context */
    method CloseTab(x: nat)
      requires Tied() && x in heap
      modifies this
      ensures Tied() && State == StartClose(old(State), x)
    {
      var t := heap[x];
      State := SetCtx(State, x, t.(closed := true));
      heap := heap[x := t.(closed := true)];
      Send(Close(x), CloseTarget, "", t.target);
    }

    /** CdpBrowserContext::after */
    method DeferCallback(x: nat)
      requires Tied() && x in heap
      modifies this
      ensures Tied() && State == Defer(old(State), x)
    {
      State := Defer(State, x);
      var g := |alive|;
      alive := alive + [true];
      armed := armed + {g};
      heap := heap[x := heap[x].(guards := heap[x].guards + {g})];
    }

    /** CdpBrowserContext::wait_for_selector: post the first check, or fail at once when closed. */
    method Wait(x: nat, css: string, timeout: nat) returns (atOnce: bool)
      requires Tied() && x in heap
      modifies this
      ensures Tied() && atOnce == old(heap)[x].closed
      ensures State == if atOnce then RefuseWait(old(State), x, css, timeout) else StartWait(old(State), x, css, timeout)
    {
      var w := |waits|;
      if heap[x].closed {
        State := RefuseWait(State, x, css, timeout);
        waits := waits + [CdpModel.Wait(x, css, clock, timeout, true)];
        return true;
      }
      State := StartWait(State, x, css, timeout);
      waits := waits + [CdpModel.Wait(x, css, clock, timeout, false)];
      posted := posted + multiset{w};
      return false;
    }

    method Evaluate(w: nat, session: string)
      requires Tied() && w < |waits| && w < |State.poller.polls|
      modifies this
      ensures Tied() && State == IssuePoll(old(State), w, session)
    {
      hide Issue;
      ghost var p := State.poller;
      State := State.(poller := p.(waitCmd := p.waitCmd[w := cmdId], polls := p.polls[w := p.polls[w] + [clock]]));
      Send(Poll(w), Method.Evaluate, session, waits[w].css);
    }

    /** The check closure of wait w. */
    method RunCheck(w: nat) returns (timesOut: bool)
      requires Tied() && w < |waits| && w < |State.poller.polls|
      modifies this
      ensures Tied() && State == Check(old(State), w) && timesOut == CheckTimesOut(old(State), w)
    {
      var t := waits[w];
      if t.done {
        return false;
      }
      if t.ctx !in heap || heap[t.ctx].closed {
        State := Check(State, w);
        waits := waits[w := t.(done := true)];
        return false;
      }
      var elapsed := clock - t.start;
      if elapsed >= Int64(t.timeout) {
        State := TimeOut(State, w);
        waits := waits[w := t.(done := true)];
        return true;
      }
      hide IssuePoll;
      Evaluate(w, heap[t.ctx].session);
      return false;
    }

    // ---- user callbacks ----

    /** Runs a callback.  While it runs the entry `id` of pending_, whose handler invoked it, may not be
        erased yet; without such an entry id is -1. */
    method RunCallback(acts: seq<Act>, ghost id: int)
      requires Tied() && id < State.mux.cmdId && Inv(Erase(State, id))
      modifies this
      ensures Tied() && State == RunActs(old(State), acts)
      decreases acts, 0
    {
      if acts != [] {
        RunActInv(Erase(State, id), acts[0]);
        RunActErase(State, acts[0], id);
        hide Tied, Inv, Erase, RunAct;
        Perform(acts[0], id);
        RunCallback(acts[1..], id);
      }
    }

    method Perform(a: Act, ghost id: int)
      requires Tied() && id < State.mux.cmdId && Inv(Erase(State, id))
      modifies this
      ensures Tied() && State == RunAct(old(State), a)
      decreases a, 1
    {
      EnterInv(Erase(State, id), a);
      EnterErase(State, a, id);
      ErasedOk(State, id);
      hide Tied, Inv, Erase, Enter, AtOnce, CacheOk, GuardsOk;
      var atOnce := MakeCall(a);
      if atOnce { RunCallback(a.inner, id); }
    }

    /** One call of a running callback, up to the callback it may invoke itself. */
    method MakeCall(a: Act) returns (atOnce: bool)
      requires Tied() && CacheOk(State.pool) && GuardsOk(State.pool, State.timers)
      modifies this
      ensures Tied() && State == Enter(old(State), a) && atOnce == AtOnce(old(State), a)
    {
      hide SendCommand, AskContext, AnswersAtOnce, RemoveContext, CdpModel.OnStart, CdpModel.OnStop, EnterContext,
           CacheOk, GuardsOk;
      match a
      case Send(tag) =>
        Send(User(tag), Other, "", "");
        atOnce := false;
      case GetContext(q, _) => atOnce := DoGetContext(q);
      case RemoveFromCache(q) =>
        RemoveFromCache(q);
        atOnce := false;
      case StartManager =>
        OnStart();
        atOnce := false;
      case StopManager =>
        OnStop();
        atOnce := false;
      case _ =>
        if Owned(contexts, heap, a.ptr) {
          atOnce := CallContext(a);
        } else {
          State := Dangle(State);
          atOnce := false;
        }
    }

    /** An operation of a context. */
    method CallContext(a: Act) returns (atOnce: bool)
      requires Tied() && (a.Operate? || a.PressKey? || a.CloseContext? || a.After? || a.WaitFor?) && Owned(contexts, heap, a.ptr)
      modifies this
      ensures Tied() && State == EnterContext(old(State), a) && atOnce == AtOnce(old(State), a)
    {
      hide SendCommand, StartClose, Defer, RefuseWait, StartWait;
      var closed := heap[a.ptr].closed;
      match a
      case Operate(x, checked, tag, _) =>
        atOnce := checked && closed;
        if !atOnce { Send(User(tag), Other, heap[x].session, ""); }
      case PressKey(x, tag, _) =>
        atOnce := closed;
        if !atOnce { Send(KeyDown(x, tag), DispatchKey, heap[x].session, "keyDown"); }
      case CloseContext(x, _) =>
        atOnce := closed;
        if !atOnce { CloseTab(x); }
      case After(x) =>
        DeferCallback(x);
        atOnce := false;
      case WaitFor(x, css, timeout, _) =>
        atOnce := Wait(x, css, timeout);
    }

    // ---- replies ----

    /** The reply to add-script: cache the context and hand it out, or delete it. */
    method OnScripted(c: nat, q: string, x: nat, ok: bool)
      requires Tied() && CacheOk(State.pool) && GuardsOk(State.pool, State.timers) && x in heap
      modifies this
      ensures Tied() && State == if ok then Deliver(InstallContext(old(State), q, x), c, x) else Silence(Destroy(old(State), x), c)
    {
      if ok {
        RemoveFromCache(q);
        hide RemoveContext, CacheOk, GuardsOk;
        contexts := contexts[q := x];
        State := State.(pool := State.pool.(contexts := contexts));
        State := Deliver(State, c, x);
      } else {
        Delete(x);
        hide Destroy, CacheOk, GuardsOk;
        State := Silence(State, c);
      }
    }

    method OnPolled(w: nat, found: bool) returns (user: bool)
      requires Tied() && w < |waits| && w < |State.poller.polls|
      modifies this
      ensures Tied() && State == if old(waits)[w].done then old(State) else if found then Find(old(State), w) else Check(old(State), w)
      ensures user == (!old(waits)[w].done && (found || CheckTimesOut(old(State), w)))
    {
      if waits[w].done {
        return false;
      }
      if found {
        State := Find(State, w);
        waits := waits[w := waits[w].(done := true)];
        return true;
      }
      hide Check;
      user := RunCheck(w);
    }

    /** The continuation of press_key. */
    method OnKeyDown(x: nat, tag: nat)
      requires Tied()
      modifies this
      ensures Tied()
      ensures State == if x !in old(heap) then Dangle(old(State))
                       else SendCommand(old(State), User(tag), DispatchKey, old(heap)[x].session, "keyUp")
    {
      if x in heap { Send(User(tag), DispatchKey, heap[x].session, "keyUp"); } else { State := Dangle(State); }
    }

    /** The stored handler, up to the user callback it may call. */
    method RunHandler(h: Handler, ok: bool, data: Payload) returns (user: bool)
      requires Tied() && CacheOk(State.pool) && GuardsOk(State.pool, State.timers)
      requires |State.poller.polls| == |State.poller.waits| && (h.AddScript? ==> h.ctx in heap) && (h.Poll? ==> h.wait < |waits|)
      modifies this
      ensures Tied() && State == React(old(State), h, ok, data) && user == CallsUser(old(State), h, ok, data)
    {
      hide SendForCall, Attached, InstallContext, RemoveContext, Destroy, Check, CheckTimesOut, Find, CacheOk, GuardsOk,
           SendCommand;
      match h
      case Create(c, q) =>
        if ok {
          SendFor(c, Attach(c, q, data.text), AttachToTarget, "", data.text);
        } else {
          State := Fail(State, c);
        }
        user := !ok;
      case Attach(c, q, target) =>
        if ok {
          OnAttached(c, q, target, data.text);
        } else {
          State := Fail(State, c);
        }
        user := !ok;
      case AddScript(c, q, x) =>
        OnScripted(c, q, x, ok);
        user := ok;
      case Close(x) =>
        user := !ok || x in heap;
        if ok {
          if x in heap { RemoveFromCache(heap[x].platform); } else { State := Dangle(State); }
        }
      case Poll(w) =>
        user := OnPolled(w, ok && data.found);
      case KeyDown(x, tag) =>
        user := !ok;
        if ok { OnKeyDown(x, tag); }
      case User(_) => user := true;
      case Noop => user := false;
    }

    method RunEntry(h: Handler, ok: bool, data: Payload, acts: seq<Act>, ghost id: int)
      requires Tied() && CacheOk(State.pool) && GuardsOk(State.pool, State.timers)
      requires |State.poller.polls| == |State.poller.waits| && (h.AddScript? ==> h.ctx in heap) && (h.Poll? ==> h.wait < |waits|)
      requires id < React(State, h, ok, data).mux.cmdId && Inv(Erase(React(State, h, ok, data), id))
      modifies this
      ensures Tied() && State == Handle(old(State), h, ok, data, acts)
    {
      hide Inv, Erase, React, CallsUser, CacheOk, GuardsOk;
      var user := RunHandler(h, ok, data);
      RunCallback(if user then acts else [], id);
    }

    /** on_ws_message for a reply: run the handler, then erase its entry. */
    method OnWsMessage(id: int, ok: bool, data: Payload, acts: seq<Act>)
      requires Tied() && Later(State)
      modifies this
      ensures Tied() && State == OnReply(old(State), id, ok, data, acts)
    {
      if id in pending {
        EntryOk(State, id);
        EntryReacts(State, id, ok, data);
        hide Inv, Later, Handle, React, CacheOk, GuardsOk;
        var h := pending[id];
        hide Answer, Erase;
        RecordAnswer(id, ok);
        RunEntry(h, ok, data, acts, id);
        EraseEntry(id);
      }
    }

    ghost method RecordAnswer(id: int, ok: bool)
      requires Tied()
      modifies `State
      ensures Tied() && State == Answer(old(State), id, ok)
    {
      State := Answer(State, id, ok);
    }

    method EraseEntry(id: int)
      requires Tied()
      modifies this
      ensures Tied() && State == Erase(old(State), id)
    {
      pending := pending - {id};
      State := Erase(State, id);
    }

    // ---- life cycle ----

    /** The Open handler: flush the offline queue, then enable the Page domain. */
    method OnOpen()
      requires Tied()
      modifies this
      ensures Tied() && State == old(State).(mux := Open(old(State).mux))
    {
      FlushQueue();
      var id := cmdId;
      cmdId := cmdId + 1;
      pending := pending[id := Noop];
      sent := sent + [Msg(id, PageEnable, "", "")];
      State := State.(mux := Open(old(State).mux));
    }

    method FlushQueue()
      requires Tied()
      modifies this
      ensures Tied()
      ensures State == old(State).(mux := old(State).mux.(wsReady := true, queue := [], wire := old(State).mux.wire + old(State).mux.queue))
    {
      wsReady := true;
      for k := 0 to |pendingCommands|
        invariant unchanged(`cmdId, `started, `pending, `pendingCommands, `contexts, `heap, `nextPtr)
        invariant unchanged(`waits, `posted, `armed, `alive, `clock, `nextCall, `State)
        invariant wsReady && sent == old(sent) + pendingCommands[..k]
      {
        sent := sent + [pendingCommands[k]];
      }
      assert pendingCommands[..|pendingCommands|] == pendingCommands;
      pendingCommands := [];
      State := State.(mux := State.mux.(wsReady := true, queue := [], wire := sent));
    }

    method OnStart()
      requires Tied()
      modifies this
      ensures Tied() && State == CdpModel.OnStart(old(State))
    {
      State := CdpModel.OnStart(State);
      if started {
        return;
      }
      wsReady := false;
      pendingCommands := [];
    }

    method OnStop()
      requires Tied() && CacheOk(State.pool) && GuardsOk(State.pool, State.timers)
      modifies this
      ensures Tied() && State == CdpModel.OnStop(old(State))
    {
      if !started {
        return;
      }
      hide ClearContexts, CacheOk, GuardsOk;
      ClearCache();
      armed := {};
      started := false;
      State := State.(timers := State.timers.(armed := {}), started := false);
    }

    method OnFired(g: nat, acts: seq<Act>)
      requires Valid() && (g in armed ==> g < |alive|)
      modifies this
      ensures Tied() && State == CdpModel.OnFired(old(State), g, acts)
    {
      if g !in armed {
        return;
      }
      var runs := alive[g];
      DisarmInv(State, g);
      NoEntry(Disarm(State, g, runs));
      hide Inv, Disarm;
      DisarmOne(g, runs);
      hide Tied, Erase;
      RunCallback(if runs then acts else [], -1);
    }

    method DisarmOne(g: nat, ghost runs: bool)
      requires Tied()
      modifies this
      ensures Tied() && State == Disarm(old(State), g, runs)
    {
      State := Disarm(State, g, runs);
      armed := armed - {g};
    }

    method OnChecked(w: nat, acts: seq<Act>)
      requires Valid() && (w in posted ==> w < |waits| && w < |State.poller.polls|)
      modifies this
      ensures Tied() && State == CdpModel.OnChecked(old(State), w, acts)
    {
      if w !in posted {
        return;
      }
      CheckedInv(State, w);
      UnpostChecks(State, w);
      hide Inv, Check, CheckTimesOut, Unpost;
      TakeCheck(w);
      var timesOut := RunCheck(w);
      hide Tied, Erase;
      RunCallback(if timesOut then acts else [], -1);
    }

    method TakeCheck(w: nat)
      requires Tied()
      modifies this
      ensures Tied() && State == Unpost(old(State), w) && waits == old(waits) && |State.poller.polls| == |old(State).poller.polls|
    {
      posted := posted - multiset{w};
      State := Unpost(State, w);
    }

    method Pass(dt: nat, reply: bool)
      requires Tied()
      modifies this
      ensures Tied() && State == Tick(old(State), dt, reply)
    {
      clock := clock + dt;
      State := Tick(State, dt, reply);
    }

    method OnLaunched(good: bool)
      requires Tied()
      modifies this
      ensures Tied() && State == if good then old(State).(started := true) else old(State)
    {
      if good {
        started := true;
        State := State.(started := true);
      }
    }

    method Replied(id: int, ok: bool, data: Payload, dt: nat, acts: seq<Act>)
      requires Valid()
      modifies this
      ensures Tied() && State == OnReply(Tick(old(State), dt, true), id, ok, data, acts)
    {
      TickInv(State, dt, true);
      hide Inv, Later, OnReply, Tick;
      Pass(dt, true);
      OnWsMessage(id, ok, data, acts);
    }

    method CheckedLater(w: nat, dt: nat, acts: seq<Act>)
      requires Valid()
      modifies this
      ensures Tied() && State == CdpModel.OnChecked(Tick(old(State), dt, false), w, acts)
    {
      TickInv(State, dt, false);
      hide Inv, CdpModel.OnChecked, Tick;
      Pass(dt, false);
      PreciseInv(State);
      OnChecked(w, acts);
    }

    /** One event.  Whatever the event, the manager does what the transition function says and its
        invariant holds again. */
    method Dispatch(e: Event)
      requires Valid()
      modifies this
      ensures Valid() && State == Step(old(State), e)
    {
      StepInv(State, e);
      PreciseInv(State);
      hide Inv, OnReply, Open, CdpModel.OnStart, CdpModel.OnStop, CdpModel.OnChecked, CdpModel.OnFired, Tick,
           CacheOk, GuardsOk, ScriptsOk;
      match e
      case Call(acts) =>
        NoEntry(State);
        RunCallback(acts, -1);
      case Reply(id, ok, data, dt, acts) => Replied(id, ok, data, dt, acts);
      case Opened => OnOpen();
      case Start => OnStart();
      case Launched(good) => OnLaunched(good);
      case Stop => OnStop();
      case Checked(w, dt, acts) => CheckedLater(w, dt, acts);
      case Fired(g, acts) => OnFired(g, acts);
    }
  }

  /** No entry has the id -1. */
  lemma NoEntry(s: Mgr)
    requires Inv(s)
    ensures Erase(s, -1) == s && -1 < s.mux.cmdId
  {
    assert s.mux.pending - {-1} == s.mux.pending;
  }

  lemma ErasedOk(s: Mgr, id: int)
    requires Inv(Erase(s, id))
    ensures CacheOk(s.pool) && GuardsOk(s.pool, s.timers)
  {
  }

  lemma CheckedInv(s: Mgr, w: nat)
    requires Inv(s) && w in s.poller.posted
    ensures var t := Check(Unpost(s, w), w);
            Inv(t) && Erase(t, -1) == t && -1 < t.mux.cmdId
  {
    UnpostPolling(s, w);
    hide Inv, Polling;
    CheckInv(Unpost(s, w), w);
    NoEntry(Check(Unpost(s, w), w));
  }

  lemma UnpostChecks(s: Mgr, w: nat)
    ensures CheckTimesOut(Unpost(s, w), w) == CheckTimesOut(s, w)
  {
  }

  /** After its handler has run, the entry is all that keeps the invariant from holding. */
  lemma EntryReacts(s: Mgr, id: int, ok: bool, data: Payload)
    requires Later(s) && id in s.mux.pending
    ensures var t := React(Answer(s, id, ok), s.mux.pending[id], ok, data);
            id < t.mux.cmdId && Inv(Erase(t, id))
  {
    ReactInv(s, id, ok, data);
    assert id < s.mux.cmdId;
    hide Inv, React;
    ReactErase(Answer(s, id, ok), s.mux.pending[id], ok, data, id);
  }

  lemma EntryOk(s: Mgr, id: int)
    requires Inv(s) && id in s.mux.pending
    ensures CacheOk(s.pool) && GuardsOk(s.pool, s.timers) && |s.poller.polls| == |s.poller.waits|
    ensures s.mux.pending[id].AddScript? ==> s.mux.pending[id].ctx in s.pool.heap
    ensures s.mux.pending[id].Poll? ==> s.mux.pending[id].wait < |s.poller.waits|
  {
    PreciseInv(s);
  }

  /** The parts of the invariant the handlers rely on. */
  lemma PreciseInv(s: Mgr)
    requires Inv(s)
    ensures CacheOk(s.pool) && GuardsOk(s.pool, s.timers) && ScriptsOk(s.mux.pending, s.pool)
    ensures |s.poller.polls| == |s.poller.waits| && |s.timers.alive| == |s.timers.owner|
    ensures forall i :: i in s.mux.pending && s.mux.pending[i].Poll? ==> s.mux.pending[i].wait < |s.poller.waits|
    ensures forall w: nat :: w in s.poller.posted ==> w < |s.poller.waits|
    ensures forall g: nat :: g in s.timers.armed ==> g < |s.timers.alive|
  {
    forall i | i in s.mux.pending && s.mux.pending[i].Poll? ensures s.mux.pending[i].wait < |s.poller.waits| {
      assert Outstanding(s.mux.pending, s.poller.waitCmd, s.mux.pending[i].wait);
    }
  }
}
