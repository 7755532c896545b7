/**
  When a caller hears of its call, and on which side.  The statements read the histories and compare a
  step with the same step whose callback makes no call; they do not go through the definitions that
  decide whether a callback is invoked.
 */
module CdpAnswers {
  import opened CdpModel
  import opened CdpInvariants
  import opened CdpReplies
  import opened CdpTheorems
  import opened CdpCallbacks

  // ---- whether a callback runs ----

  /** How often a get_context call has been answered, and how often a wait. */
  function Heard(b: Book, c: nat): nat {
    b.got[c] + b.failed[c]
  }

  /** From s to q, the reply on side ok to an entry h concludes what its caller waits for. */
  ghost predicate Concludes(s: Mgr, q: Mgr, h: Handler, ok: bool) {
    match h
    case Create(c, _) => Heard(q.book, c) == Heard(s.book, c) + 1
    case Attach(c, _, _) => Heard(q.book, c) == Heard(s.book, c) + 1
    case AddScript(c, _, _) => Heard(q.book, c) == Heard(s.book, c) + 1
    case Poll(w) => Outcomes(q.poller, w) == Outcomes(s.poller, w) + 1
    case Close(x) => !ok || x in s.pool.heap
    case KeyDown(_, _) => !ok
    case User(_) => true
    case Noop => false
  }

  /** A reply runs the caller's callback exactly when it concludes the call: on either side for a command
      of the caller's own, when on_ok or on_error is recorded for a get_context call, when an outcome is
      recorded for a wait, and not at all for the manager's own Page.enable. */
  lemma ReplyCallsBack(s: Mgr, id: int, ok: bool, data: Payload, dt: nat, acts: seq<Act>)
    requires Inv(s) && id in s.mux.pending
    ensures var q := Step(s, Reply(id, ok, data, dt, []));
            Step(s, Reply(id, ok, data, dt, acts)) == if Concludes(s, q, s.mux.pending[id], ok) then RunActs(q, acts) else q
  {
    hide Inv, React, CallsUser, Concludes, RunAct, Tick, Answer, Erase;
    var h := s.mux.pending[id];
    var s1 := Answer(Tick(s, dt, true), id, ok);
    var b := React(s1, h, ok, data);
    EntryBelow(s, id, ok, data, dt);
    RunActsErase(b, acts, id);
    ReactConcludes(s, id, ok, data, dt);
    Ticked(s, dt, true);
  }

  lemma EntryBelow(s: Mgr, id: int, ok: bool, data: Payload, dt: nat)
    requires Inv(s) && id in s.mux.pending
    ensures id < React(Answer(Tick(s, dt, true), id, ok), s.mux.pending[id], ok, data).mux.cmdId
  {
    assert id < s.mux.cmdId;
    hide Inv, React;
    ReactErase(Answer(Tick(s, dt, true), id, ok), s.mux.pending[id], ok, data, id);
  }

  lemma ReactConcludes(s: Mgr, id: int, ok: bool, data: Payload, dt: nat)
    requires Inv(s) && id in s.mux.pending
    ensures var h := s.mux.pending[id];
            var s1 := Answer(Tick(s, dt, true), id, ok);
            CallsUser(s1, h, ok, data) <==> Concludes(s, Erase(React(s1, h, ok, data), id), h, ok)
  {
    hide Inv, React, CallsUser;
    var h := s.mux.pending[id];
    var s1 := Answer(Tick(s, dt, true), id, ok);
    if h.Poll? {
      assert CarriesWait(s.mux, id, h.wait);
      DoneGuardsNeverTaken(s, h.wait);
      PolledEqually(s);
      PollConcludes(s1, h.wait, ok, data);
    } else {
      OtherConcludes(s1, h, ok, data);
    }
  }

  lemma PollConcludes(s: Mgr, w: nat, ok: bool, data: Payload)
    requires w < |s.poller.waits| == |s.poller.polls| && !s.poller.waits[w].done
    ensures CallsUser(s, Poll(w), ok, data) <==> Concludes(s, React(s, Poll(w), ok, data), Poll(w), ok)
  {
    hide Int64, Issue;
  }

  lemma OtherConcludes(s: Mgr, h: Handler, ok: bool, data: Payload)
    requires !h.Poll?
    ensures CallsUser(s, h, ok, data) <==> Concludes(s, React(s, h, ok, data), h, ok)
  {
    if h.Create? || h.Attach? || h.AddScript? {
      ReactOutcome(s, h, ok, data, h.call);
      hide React;
    }
  }

  /** For a command of the caller's own nothing else happens. */
  lemma UserReply(s: Mgr, id: int, ok: bool, data: Payload, dt: nat, acts: seq<Act>)
    requires id in s.mux.pending && s.mux.pending[id].User?
    ensures Step(s, Reply(id, ok, data, dt, acts)) == Erase(RunActs(Answer(Tick(s, dt, true), id, ok), acts), id)
  {
    hide RunActs;
  }

  /** A posted check runs on_timeout exactly when it records a timeout, and a one-shot its callback
      exactly when it records a run. */
  lemma TimerCallsBack(s: Mgr, w: nat, g: nat, dt: nat, acts: seq<Act>)
    requires Inv(s)
    ensures var q := Step(s, Checked(w, dt, []));
            Step(s, Checked(w, dt, acts)) == if Outcomes(q.poller, w) == Outcomes(s.poller, w) + 1 then RunActs(q, acts) else q
    ensures var q := Step(s, Fired(g, []));
            Step(s, Fired(g, acts)) == if q.timers.ran[g] == s.timers.ran[g] + 1 then RunActs(q, acts) else q
  {
    if w in s.poller.posted { DoneGuardsNeverTaken(s, w); }
    PolledEqually(s);
    hide Inv, Step, Outcomes;
    CheckRuns(s, w, dt, acts);
    ShotRuns(s, g, acts);
  }

  lemma CheckRuns(s: Mgr, w: nat, dt: nat, acts: seq<Act>)
    requires w in s.poller.posted ==> w < |s.poller.waits| == |s.poller.polls| && !s.poller.waits[w].done
    ensures var q := Step(s, Checked(w, dt, []));
            Step(s, Checked(w, dt, acts)) == if Outcomes(q.poller, w) == Outcomes(s.poller, w) + 1 then RunActs(q, acts) else q
  {
    hide RunAct, Check, CheckTimesOut, Outcomes;
    CheckedTimesOut(s, w, dt);
    TickOutcomes(s, w, dt);
  }

  lemma TickOutcomes(s: Mgr, w: nat, dt: nat)
    ensures Outcomes(Tick(s, dt, false).poller, w) == Outcomes(s.poller, w)
  {
  }

  lemma ShotRuns(s: Mgr, g: nat, acts: seq<Act>)
    ensures var q := Step(s, Fired(g, []));
            Step(s, Fired(g, acts)) == if q.timers.ran[g] == s.timers.ran[g] + 1 then RunActs(q, acts) else q
  {
    hide RunAct;
  }

  lemma CheckedTimesOut(s: Mgr, w: nat, dt: nat)
    requires w in s.poller.posted ==> w < |s.poller.waits| == |s.poller.polls| && !s.poller.waits[w].done
    ensures var s1 := Tick(s, dt, false);
            w in s.poller.posted ==>
              (CheckTimesOut(s1, w) <==> Outcomes(Check(Unpost(s1, w), w).poller, w) == Outcomes(s.poller, w) + 1)
  {
    hide Int64, Issue;
  }

  /** A call invokes its callback before it returns exactly when it records an answer for it, or is made
      to a closed context; the calls that send a command to a closed context send nothing. */
  lemma CallCallsBack(s: Mgr, a: Act)
    requires a.Operate? || a.PressKey? || a.GetContext? || a.CloseContext? || a.WaitFor?
    ensures var q := RunAct(s, a.(inner := []));
            var refused := !a.GetContext? && Usable(s.pool, a.ptr) && s.pool.heap[a.ptr].closed;
            && (a.GetContext? ==>
                  RunAct(s, a) == if Heard(q.book, |s.book.calls|) == Heard(s.book, |s.book.calls|) + 1 then RunActs(q, a.inner) else q)
            && (a.WaitFor? ==>
                  && RunAct(s, a) == (if refused then RunActs(q, a.inner) else q)
                  && q.poller.timedOut == s.poller.timedOut + if refused then multiset{|s.poller.waits|} else multiset{})
            && (a.PressKey? || a.CloseContext? || (a.Operate? && a.checked) ==>
                  RunAct(s, a) == (if refused then RunActs(s, a.inner) else q))
            && (a.Operate? && !a.checked ==> RunAct(s, a) == q)
  {
    hide RunActs, Issue;
    NoActs(Enter(s, a));
    assert Enter(s, a.(inner := [])) == Enter(s, a);
  }

  lemma NoActs(s: Mgr)
    ensures RunActs(s, []) == s
  {
  }

  // ---- on which side a get_context call ends ----

  /** Among the calls that a callback makes, nested ones included, is the get_context call number c, made
      while the manager is started and caches its platform. */
  ghost predicate Hits(s: Mgr, acts: seq<Act>, c: nat)
    decreases acts, 0
  {
    acts != [] && (HitsOne(s, acts[0], c) || Hits(RunAct(s, acts[0]), acts[1..], c))
  }

  ghost predicate HitsOne(s: Mgr, a: Act, c: nat)
    decreases a, 1
  {
    || (a.GetContext? && |s.book.calls| == c && s.started && a.platform in s.pool.contexts)
    || (AtOnce(s, a) && Hits(Enter(s, a), a.inner, c))
  }

  /** The same, made while the manager is not started. */
  ghost predicate Refuses(s: Mgr, acts: seq<Act>, c: nat)
    decreases acts, 0
  {
    acts != [] && (RefusesOne(s, acts[0], c) || Refuses(RunAct(s, acts[0]), acts[1..], c))
  }

  ghost predicate RefusesOne(s: Mgr, a: Act, c: nat)
    decreases a, 1
  {
    || (a.GetContext? && |s.book.calls| == c && !s.started)
    || (AtOnce(s, a) && Refuses(Enter(s, a), a.inner, c))
  }

  function One(b: bool): nat {
    if b then 1 else 0
  }

  lemma EnterOutcome(s: Mgr, a: Act, c: nat)
    ensures var b, r := s.book, Enter(s, a).book;
            && r.got[c] == b.got[c] + One(a.GetContext? && |b.calls| == c && s.started && a.platform in s.pool.contexts)
            && r.failed[c] == b.failed[c] + One(a.GetContext? && |b.calls| == c && !s.started)
            && r.calls == (if a.GetContext? then b.calls + [a.platform] else b.calls)
            && (c < |b.calls| ==> (c in r.result <==> c in b.result) && (c in b.result ==> r.result[c] == b.result[c]))
            && (a.GetContext? && |b.calls| == c && s.started && a.platform in s.pool.contexts ==>
                  c in r.result && r.result[c] == s.pool.contexts[a.platform])
  {
    hide Issue, ClearGuards, Reset, Usable;
  }

  lemma CallsGrow(s: Mgr, acts: seq<Act>)
    ensures s.book.calls <= RunActs(s, acts).book.calls
  {
    hide MuxFrame, PoolFrame, PollerFrame, TimersFrame, RunActs;
    RunActsFrame(s, acts);
  }

  lemma OneGrows(s: Mgr, a: Act)
    ensures s.book.calls <= RunAct(s, a).book.calls
  {
    hide MuxFrame, PoolFrame, PollerFrame, TimersFrame, RunAct;
    RunActFrame(s, a);
  }

  /** Calls have fresh numbers. */
  lemma FreshNumbers(s: Mgr, acts: seq<Act>, c: nat)
    requires c < |s.book.calls|
    ensures !Hits(s, acts, c) && !Refuses(s, acts, c)
    decreases acts, 0
  {
    if acts != [] {
      FreshNumber(s, acts[0], c);
      OneGrows(s, acts[0]);
      hide RunAct, HitsOne, RefusesOne;
      FreshNumbers(RunAct(s, acts[0]), acts[1..], c);
    }
  }

  lemma FreshNumber(s: Mgr, a: Act, c: nat)
    requires c < |s.book.calls|
    ensures !HitsOne(s, a, c) && !RefusesOne(s, a, c)
    decreases a, 1
  {
    EnterOutcome(s, a, c);
    hide Enter;
    if AtOnce(s, a) { FreshNumbers(Enter(s, a), a.inner, c); }
  }

  lemma ActsOutcome(s: Mgr, acts: seq<Act>, c: nat)
    ensures var b, r := s.book, RunActs(s, acts).book;
            r.got[c] == b.got[c] + One(Hits(s, acts, c)) && r.failed[c] == b.failed[c] + One(Refuses(s, acts, c))
    decreases acts, 0
  {
    if acts != [] {
      var t := RunAct(s, acts[0]);
      ActOutcome(s, acts[0], c);
      ActsOutcome(t, acts[1..], c);
      hide RunAct, HitsOne, RefusesOne;
      if c < |t.book.calls| { FreshNumbers(t, acts[1..], c); }
      OneNumber(s, acts[0], c);
    }
  }

  /** A call that is answered has its number from then on. */
  lemma OneNumber(s: Mgr, a: Act, c: nat)
    ensures HitsOne(s, a, c) || RefusesOne(s, a, c) ==> c < |RunAct(s, a).book.calls|
    decreases a, 1
  {
    EnterOutcome(s, a, c);
    hide Enter;
    if AtOnce(s, a) {
      CallsGrow(Enter(s, a), a.inner);
      ManyNumbers(Enter(s, a), a.inner, c);
    }
  }

  lemma ManyNumbers(s: Mgr, acts: seq<Act>, c: nat)
    ensures Hits(s, acts, c) || Refuses(s, acts, c) ==> c < |RunActs(s, acts).book.calls|
    decreases acts, 0
  {
    if acts != [] {
      OneNumber(s, acts[0], c);
      CallsGrow(RunAct(s, acts[0]), acts[1..]);
      hide RunAct, HitsOne, RefusesOne;
      ManyNumbers(RunAct(s, acts[0]), acts[1..], c);
    }
  }

  lemma ActOutcome(s: Mgr, a: Act, c: nat)
    ensures var b, r := s.book, RunAct(s, a).book;
            r.got[c] == b.got[c] + One(HitsOne(s, a, c)) && r.failed[c] == b.failed[c] + One(RefusesOne(s, a, c))
    decreases a, 1
  {
    EnterOutcome(s, a, c);
    hide Enter;
    if AtOnce(s, a) {
      ActsOutcome(Enter(s, a), a.inner, c);
      if c < |Enter(s, a).book.calls| { FreshNumbers(Enter(s, a), a.inner, c); }
    }
  }

  /** The reply, on side ok, to the add-script command of call c. */
  ghost predicate Scripted(s: Mgr, e: Event, c: nat) {
    e.Reply? && e.ok && e.id in s.mux.pending && s.mux.pending[e.id].AddScript? && s.mux.pending[e.id].call == c
  }

  /** An error reply to the createTarget or attachToTarget command of call c. */
  ghost predicate Fails(s: Mgr, e: Event, c: nat) {
    && e.Reply? && !e.ok && e.id in s.mux.pending
    && (s.mux.pending[e.id].Create? || s.mux.pending[e.id].Attach?) && s.mux.pending[e.id].call == c
  }

  lemma ReactOutcome(s: Mgr, h: Handler, ok: bool, data: Payload, c: nat)
    ensures var b, r := s.book, React(s, h, ok, data).book;
            && r.got[c] == b.got[c] + One(h.AddScript? && ok && h.call == c)
            && r.failed[c] == b.failed[c] + One((h.Create? || h.Attach?) && !ok && h.call == c)
            && r.calls == b.calls
            && (h.AddScript? && ok && h.call == c ==> c in r.result && r.result[c] == h.ctx)
  {
    hide Issue, ClearGuards, Attached, Check;
    if h.Attach? { AttachedLeaves(s, h.call, h.platform, h.target, data.text); }
    if h.Poll? { CheckLeaves(s, h.wait); }
  }

  lemma BeforeOutcome(s: Mgr, e: Event, c: nat)
    ensures var b, r := s.book, Before(s, e).book;
            && r.got[c] == b.got[c] + One(Scripted(s, e, c)) && r.failed[c] == b.failed[c] + One(Fails(s, e, c))
            && r.calls == b.calls
            && (Scripted(s, e, c) ==> c in r.result && r.result[c] == s.mux.pending[e.id].ctx)
  {
    hide Issue, ClearGuards, React, Check, Open, Reset;
    match e
    case Reply(id, ok, data, dt, acts) =>
      if id in s.mux.pending { ReactOutcome(Answer(Tick(s, dt, true), id, ok), s.mux.pending[id], ok, data, c); }
    case Checked(w, dt, acts) => CheckLeaves(Unpost(Tick(s, dt, false), w), w);
    case _ =>
  }

  /** For every step and every get_context call, at any depth of callbacks: on_ok is run exactly by a
      positive reply to its add-script command, or at once when the manager is started and caches its
      platform; on_error exactly by an error reply to its createTarget or attachToTarget command, or at
      once when the manager is not started. */
  lemma CallOutcome(s: Mgr, e: Event, c: nat)
    ensures var b, r := s.book, Step(s, e).book;
            && r.got[c] == b.got[c] + One(Scripted(s, e, c)) + One(Hits(Before(s, e), Callback(s, e), c))
            && r.failed[c] == b.failed[c] + One(Fails(s, e, c)) + One(Refuses(Before(s, e), Callback(s, e), c))
  {
    BeforeOutcome(s, e, c);
    StepSplits(s, e);
    hide Before, Callback, Step, Scripted, Fails;
    ActsOutcome(Before(s, e), Callback(s, e), c);
  }

  // ---- what is handed out ----

  /** m is a state that the run of these calls passes through. */
  ghost predicate Passes(s: Mgr, acts: seq<Act>, m: Mgr)
    decreases acts, 0
  {
    m == s || (acts != [] && (PassesOne(s, acts[0], m) || Passes(RunAct(s, acts[0]), acts[1..], m)))
  }

  ghost predicate PassesOne(s: Mgr, a: Act, m: Mgr)
    decreases a, 1
  {
    AtOnce(s, a) && Passes(Enter(s, a), a.inner, m)
  }

  lemma EnterCacheOk(s: Mgr, a: Act)
    requires CacheOk(s.pool)
    ensures CacheOk(Enter(s, a).pool)
  {
    hide Issue, ClearGuards, Reset;
  }

  lemma ResultStays(s: Mgr, acts: seq<Act>, c: nat)
    requires c < |s.book.calls| && c in s.book.result
    ensures var r := RunActs(s, acts).book; c in r.result && r.result[c] == s.book.result[c] && s.book.calls <= r.calls
    decreases acts, 0
  {
    if acts != [] {
      OneResultStays(s, acts[0], c);
      OneGrows(s, acts[0]);
      CallsGrow(RunAct(s, acts[0]), acts[1..]);
      hide RunAct;
      ResultStays(RunAct(s, acts[0]), acts[1..], c);
    }
  }

  lemma OneResultStays(s: Mgr, a: Act, c: nat)
    requires c < |s.book.calls| && c in s.book.result
    ensures var r := RunAct(s, a).book; c in r.result && r.result[c] == s.book.result[c]
    decreases a, 1
  {
    EnterOutcome(s, a, c);
    hide Enter;
    if AtOnce(s, a) { ResultStays(Enter(s, a), a.inner, c); }
  }

  /** m is a moment at which context b.result[c] is cached, and allocated, under the platform of call c. */
  ghost predicate CachedFor(m: Mgr, b: Book, c: nat) {
    && c < |b.calls| && c in b.result
    && CachedUnder(m.pool, b.calls[c], b.result[c]) && b.result[c] in m.pool.heap
  }

  lemma SameFor(m: Mgr, b: Book, r: Book, c: nat)
    requires CachedFor(m, b, c) && c < |r.calls| && r.calls[c] == b.calls[c] && c in r.result && r.result[c] == b.result[c]
    ensures CachedFor(m, r, c)
  {
  }

  lemma HitMoment(s: Mgr, acts: seq<Act>, c: nat) returns (m: Mgr)
    requires CacheOk(s.pool) && Hits(s, acts, c)
    ensures Passes(s, acts, m) && CachedFor(m, RunActs(s, acts).book, c)
    decreases acts, 0
  {
    var t := RunAct(s, acts[0]);
    if HitsOne(s, acts[0], c) {
      m := OneMoment(s, acts[0], c);
      hide RunAct, HitsOne, PassesOne, CachedFor, CacheOk;
      FoundFor(m, t.book, c);
      ResultStays(t, acts[1..], c);
      CallsGrow(t, acts[1..]);
      SameFor(m, t.book, RunActs(s, acts).book, c);
    } else {
      ActCacheOk(s, acts[0]);
      hide RunAct, HitsOne, PassesOne, CachedFor, CacheOk;
      m := HitMoment(t, acts[1..], c);
    }
  }

  lemma FoundFor(m: Mgr, b: Book, c: nat)
    requires CachedFor(m, b, c)
    ensures c < |b.calls| && c in b.result
  {
  }

  lemma OneMoment(s: Mgr, a: Act, c: nat) returns (m: Mgr)
    requires CacheOk(s.pool) && HitsOne(s, a, c)
    ensures (m == s || PassesOne(s, a, m)) && CachedFor(m, RunAct(s, a).book, c)
    decreases a, 1
  {
    EnterOutcome(s, a, c);
    EnterCacheOk(s, a);
    if a.GetContext? && |s.book.calls| == c && s.started && a.platform in s.pool.contexts {
      m := s;
      var t := Enter(s, a);
      assert AtOnce(s, a);
      assert CachedFor(s, t.book, c);
      hide Enter, CacheOk;
      ResultStays(t, a.inner, c);
      CallsGrow(t, a.inner);
      SameFor(s, t.book, RunAct(s, a).book, c);
    } else {
      hide Enter, CacheOk, CachedFor;
      m := HitMoment(Enter(s, a), a.inner, c);
    }
  }

  lemma ActCacheOk(s: Mgr, a: Act)
    requires CacheOk(s.pool)
    ensures CacheOk(RunAct(s, a).pool)
    decreases a, 1
  {
    EnterCacheOk(s, a);
    hide Enter, CacheOk;
    if AtOnce(s, a) { ActsCacheOk(Enter(s, a), a.inner); }
  }

  lemma ActsCacheOk(s: Mgr, acts: seq<Act>)
    requires CacheOk(s.pool)
    ensures CacheOk(RunActs(s, acts).pool)
    decreases acts, 0
  {
    hide CacheOk, RunAct;
    if acts != [] {
      ActCacheOk(s, acts[0]);
      ActsCacheOk(RunAct(s, acts[0]), acts[1..]);
    }
  }

  lemma BeforeCacheOk(s: Mgr, e: Event)
    requires Inv(s)
    ensures CacheOk(Before(s, e).pool)
    ensures e.Reply? && e.ok && e.id in s.mux.pending && s.mux.pending[e.id].AddScript? ==>
              CachedUnder(Before(s, e).pool, s.mux.pending[e.id].platform, s.mux.pending[e.id].ctx)
  {
    StepInv(s, e);
    assert CacheOk(s.pool) && CacheOk(Step(s, e).pool);
    hide Inv, CacheOk, React, Check, OnStart, OnStop, Open;
    match e
    case Reply(id, ok, data, dt, acts) =>
      if id in s.mux.pending {
        BeforeReplyCacheOk(s, id, ok, data, dt, acts);
      }
    case Checked(w, dt, acts) => CheckLeaves(Unpost(Tick(s, dt, false), w), w);
    case _ =>
  }

  lemma BeforeReplyCacheOk(s: Mgr, id: int, ok: bool, data: Payload, dt: nat, acts: seq<Act>)
    requires Inv(s) && id in s.mux.pending
    ensures var b := Before(s, Reply(id, ok, data, dt, acts)).pool; var h := s.mux.pending[id];
            CacheOk(b) && (ok && h.AddScript? ==> CachedUnder(b, h.platform, h.ctx))
  {
    var h := s.mux.pending[id];
    var s0 := Tick(s, dt, true);
    TickInv(s, dt, true);
    ReactInv(s0, id, ok, data);
    EntryBelow(s, id, ok, data, dt);
    var s1 := Answer(s0, id, ok);
    assert id < s1.mux.cmdId;
    ReactErase(s1, h, ok, data, id);
    hide Inv, Later, React, Check, ClearGuards, Issue;
    ErasedCache(React(s1, h, ok, data), id);
    if ok && h.AddScript? { Installed(s1, h.call, h.platform, h.ctx, data); }
  }

  lemma ErasedCache(s: Mgr, id: int)
    requires Inv(Erase(s, id))
    ensures CacheOk(s.pool)
  {
  }

  lemma Installed(s: Mgr, c: nat, q: string, x: nat, data: Payload)
    ensures CachedUnder(React(s, AddScript(c, q, x), true, data).pool, q, x)
  {
    hide ClearGuards;
  }

  /** Whatever on_ok is given was, at a moment of the step, allocated and cached under the platform that
      the call asked for. */
  lemma HandedOut(s: Mgr, e: Event, c: nat) returns (m: Mgr)
    requires Inv(s) && Step(s, e).book.got[c] > s.book.got[c]
    ensures Passes(Before(s, e), Callback(s, e), m) && CachedFor(m, Step(s, e).book, c)
  {
    var b, acts := Before(s, e), Callback(s, e);
    CallOutcome(s, e, c);
    BeforeOutcome(s, e, c);
    BeforeCacheOk(s, e);
    StepSplits(s, e);
    if Scripted(s, e, c) {
      m := b;
      ScriptedFor(s, e, c);
      hide Inv, Before, Callback, Step, Scripted, CachedFor, CacheOk;
      FoundFor(b, b.book, c);
      ResultStays(b, acts, c);
      CallsGrow(b, acts);
      SameFor(b, b.book, Step(s, e).book, c);
    } else {
      hide Inv, Before, Callback, Step, CachedFor, CacheOk;
      m := HitMoment(b, acts, c);
    }
  }

  lemma ScriptedFor(s: Mgr, e: Event, c: nat)
    requires Inv(s) && Scripted(s, e, c)
    ensures CachedFor(Before(s, e), Before(s, e).book, c)
  {
    BeforeOutcome(s, e, c);
    BeforeCacheOk(s, e);
    assert s.mux.pending[e.id].call < |s.book.calls| && s.book.calls[c] == s.mux.pending[e.id].platform;
    hide Inv, Before;
  }
}
