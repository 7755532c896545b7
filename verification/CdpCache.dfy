/** Acquiring a context and the agreement of later cache hits. */
module CdpCache {
  import opened CdpModel
  import opened CdpInvariants
  import opened CdpReplies
  import opened CdpTheorems

  /** The context stored under q always has platform q. */
  lemma CachedPlatform(es: seq<Event>, q: string)
    requires q in Run(Init(), es).pool.contexts
    ensures var p := Run(Init(), es).pool;
            p.contexts[q] in p.heap && p.heap[p.contexts[q]].platform == q
  {
    InitInv();
    RunInv(Init(), es);
  }

  // ---- what takes a context out of the cache ----

  ghost predicate AnswersOk(s: Mgr, e: Event) {
    e.Reply? && e.ok && e.id in s.mux.pending
  }

  /** Among the calls that a callback makes, nested ones included, are a remove_context(q) or a stop()
      of the started manager. */
  ghost predicate Evicts(s: Mgr, acts: seq<Act>, q: string)
    decreases acts, 0
  {
    acts != [] && (EvictsOne(s, acts[0], q) || Evicts(RunAct(s, acts[0]), acts[1..], q))
  }

  ghost predicate EvictsOne(s: Mgr, a: Act, q: string)
    decreases a, 1
  {
    a == RemoveFromCache(q) || (a.StopManager? && s.started) || (AtOnce(s, a) && Evicts(Enter(s, a), a.inner, q))
  }

  /** stop(), a positive reply to a close of the context of q, or a callback that does either by hand. */
  ghost predicate Retires(s: Mgr, e: Event, q: string) {
    || (e.Stop? && s.started)
    || (AnswersOk(s, e) && s.mux.pending[e.id].Close? && s.mux.pending[e.id].ctx in s.pool.heap
        && s.pool.heap[s.mux.pending[e.id].ctx].platform == q)
    || Evicts(Before(s, e), Callback(s, e), q)
  }

  /** The last reply of another acquisition for q. */
  ghost predicate Replaces(s: Mgr, e: Event, q: string) {
    AnswersOk(s, e) && s.mux.pending[e.id].AddScript? && s.mux.pending[e.id].platform == q
  }

  lemma ReactContexts(s: Mgr, h: Handler, ok: bool, data: Payload)
    ensures React(s, h, ok, data).pool.contexts ==
            if h.AddScript? && ok then s.pool.contexts[h.platform := h.ctx]
            else if h.Close? && ok && h.ctx in s.pool.heap then s.pool.contexts - {s.pool.heap[h.ctx].platform}
            else s.pool.contexts
  {
    hide Issue, ClearGuards, Attached, Check;
    if h.Attach? { AttachedLeaves(s, h.call, h.platform, h.target, data.text); }
    if h.Poll? { CheckLeaves(s, h.wait); }
    if h.AddScript? {
      assert (s.pool.contexts - {h.platform})[h.platform := h.ctx] == s.pool.contexts[h.platform := h.ctx];
    }
  }

  lemma BeforeContexts(s: Mgr, e: Event)
    ensures Before(s, e).pool.contexts ==
            if AnswersOk(s, e) && s.mux.pending[e.id].AddScript? then
              s.pool.contexts[s.mux.pending[e.id].platform := s.mux.pending[e.id].ctx]
            else if AnswersOk(s, e) && s.mux.pending[e.id].Close? && s.mux.pending[e.id].ctx in s.pool.heap then
              s.pool.contexts - {s.pool.heap[s.mux.pending[e.id].ctx].platform}
            else if e.Stop? && s.started then map[]
            else s.pool.contexts
  {
    hide Issue, ClearGuards, React, Check, Open, Reset;
    if e.Reply? && e.id in s.mux.pending {
      ReactContexts(Answer(Tick(s, e.dt, true), e.id, e.ok), s.mux.pending[e.id], e.ok, e.data);
    }
    if e.Checked? { CheckLeaves(Unpost(Tick(s, e.dt, false), e.wait), e.wait); }
  }

  lemma EnterContexts(s: Mgr, a: Act, q: string)
    requires q in s.pool.contexts
    ensures q in Enter(s, a).pool.contexts <==> a != RemoveFromCache(q) && !(a.StopManager? && s.started)
  {
    hide Issue, ClearGuards, Reset, Usable;
  }

  /** A callback's calls take q out of the cache exactly by the calls named by Evicts. */
  lemma ActsContexts(s: Mgr, acts: seq<Act>, q: string)
    requires q in s.pool.contexts
    ensures q in RunActs(s, acts).pool.contexts <==> !Evicts(s, acts, q)
    decreases acts, 0
  {
    if acts != [] {
      var t := RunAct(s, acts[0]);
      ActContexts(s, acts[0], q);
      RunActsFrame(t, acts[1..]);
      hide RunAct, EvictsOne;
      if q in t.pool.contexts { ActsContexts(t, acts[1..], q); }
    }
  }

  lemma ActContexts(s: Mgr, a: Act, q: string)
    requires q in s.pool.contexts
    ensures q in RunAct(s, a).pool.contexts <==> !EvictsOne(s, a, q)
    decreases a, 1
  {
    EnterContexts(s, a, q);
    hide Enter;
    if AtOnce(s, a) {
      RunActsFrame(Enter(s, a), a.inner);
      if q in Enter(s, a).pool.contexts { ActsContexts(Enter(s, a), a.inner, q); }
    }
  }

  lemma StepContexts(s: Mgr, e: Event, q: string)
    ensures var b, t := Before(s, e).pool, Step(s, e).pool;
            q in t.contexts <==> q in b.contexts && !Evicts(Before(s, e), Callback(s, e), q)
    ensures var b, t := Before(s, e).pool, Step(s, e).pool;
            q in t.contexts ==> t.contexts[q] == b.contexts[q]
  {
    StepSplits(s, e);
    var b := Before(s, e);
    RunActsFrame(b, Callback(s, e));
    hide Before, Callback, Step, RunActs, Evicts;
    if q in b.pool.contexts { ActsContexts(b, Callback(s, e), q); }
  }

  /** The cache entry of q survives a step if and only if the step is not stop(), not the positive
      reply to a close of the context of q, not the last reply of an overlapping acquisition, and its
      callback calls neither stop() nor remove_context(q). */
  lemma CacheEntryKept(s: Mgr, e: Event, q: string)
    requires Inv(s) && q in s.pool.contexts
    ensures CachedUnder(Step(s, e).pool, q, s.pool.contexts[q]) <==> !Retires(s, e, q) && !Replaces(s, e, q)
  {
    BeforeContexts(s, e);
    StepContexts(s, e, q);
    hide CarriesOk, EndsOk, WireOk, PendingOk, TokenOk, PollsCarried, OutcomesOk, PollsOk, GuardsOk, RanOk, Step,
         Before, Callback, Evicts;
    if Replaces(s, e, q) {
      assert Carried(s.mux.pending, s.pool.ctxCmd, s.mux.pending[e.id].ctx);
      assert Usable(s.pool, s.pool.contexts[q]);
    }
  }

  /** An overlapping acquisition frees the context handed out first and caches another one, which the
      callback may remove again. */
  lemma OverlapReplaces(s: Mgr, e: Event, q: string)
    requires Inv(s) && q in s.pool.contexts && Replaces(s, e, q)
    ensures var t := Step(s, e);
            var x := s.mux.pending[e.id].ctx;
            && x != s.pool.contexts[q] && t.pool.freed[s.pool.contexts[q]] == 1
            && (CachedUnder(t.pool, q, x) <==> !Evicts(Before(s, e), Callback(s, e), q))
  {
    hide CarriesOk, EndsOk, WireOk, PendingOk, TokenOk, PollsCarried, OutcomesOk, PollsOk, GuardsOk, RanOk, Step,
         Before, Callback, Evicts, MuxFrame, PollerFrame, TimersFrame;
    BeforeContexts(s, e);
    StepContexts(s, e, q);
    StepFrame(s, e);
    StepInv(s, e);
    ReplacedFreed(s, e, q);
    var x := s.mux.pending[e.id].ctx;
    assert Carried(s.mux.pending, s.pool.ctxCmd, x);
    assert Usable(s.pool, s.pool.contexts[q]);
  }

  lemma ReplacedFreed(s: Mgr, e: Event, q: string)
    requires q in s.pool.contexts && Replaces(s, e, q)
    ensures Before(s, e).pool.freed == s.pool.freed + multiset{s.pool.contexts[q]}
  {
    hide ClearGuards;
  }

  // ---- cache agreement ----

  /** No acquisition for q is in flight. */
  ghost predicate Quiet(m: Mux, q: string) {
    forall i :: i in m.pending && HasCall(m.pending[i]) ==> m.pending[i].platform != q
  }

  /** Every call for q from number n on was answered with x. */
  ghost predicate AnsweredWith(b: Book, n: nat, q: string, x: nat) {
    forall c :: n <= c < |b.calls| && b.calls[c] == q ==> c in b.got && c in b.result && b.result[c] == x
  }

  ghost predicate Agrees(s: Mgr, n: nat, q: string, x: nat) {
    s.started && CachedUnder(s.pool, q, x) && Quiet(s.mux, q) && AnsweredWith(s.book, n, q, x)
  }

  lemma AskAgrees(s: Mgr, r: string, n: nat, q: string, x: nat)
    requires Agrees(s, n, q, x)
    ensures Agrees(AskContext(s, r), n, q, x)
  {
  }

  lemma EnterAgrees(s: Mgr, a: Act, n: nat, q: string, x: nat)
    requires Agrees(s, n, q, x) && a != RemoveFromCache(q) && !a.StopManager?
    ensures Agrees(Enter(s, a), n, q, x)
  {
    if a.GetContext? {
      AskAgrees(s, a.platform, n, q, x);
    } else {
      hide AnsweredWith, ClearGuards, Reset, AskContext;
    }
  }

  lemma RunActsAgrees(s: Mgr, acts: seq<Act>, n: nat, q: string, x: nat)
    requires Agrees(s, n, q, x) && !Evicts(s, acts, q)
    ensures Agrees(RunActs(s, acts), n, q, x)
    decreases acts, 0
  {
    if acts != [] {
      RunActAgrees(s, acts[0], n, q, x);
      hide Agrees;
      RunActsAgrees(RunAct(s, acts[0]), acts[1..], n, q, x);
    }
  }

  lemma RunActAgrees(s: Mgr, a: Act, n: nat, q: string, x: nat)
    requires Agrees(s, n, q, x) && !EvictsOne(s, a, q)
    ensures Agrees(RunAct(s, a), n, q, x)
    decreases a, 1
  {
    EnterAgrees(s, a, n, q, x);
    hide Agrees, Enter;
    if AtOnce(s, a) { RunActsAgrees(Enter(s, a), a.inner, n, q, x); }
  }

  lemma ScriptAgrees(s: Mgr, c: nat, r: string, y: nat, ok: bool, n: nat, q: string, x: nat)
    requires Agrees(s, n, q, x) && r != q && c < |s.book.calls| && s.book.calls[c] == r
    ensures Agrees(Deliver(InstallContext(s, r, y), c, y), n, q, x) && Agrees(Silence(Destroy(s, y), c), n, q, x)
  {
    hide InstallContext, Destroy;
    InstallBook(s, r, y);
  }

  lemma AttachedAgrees(s: Mgr, c: nat, r: string, target: string, session: string, n: nat, q: string, x: nat)
    requires Agrees(s, n, q, x) && r != q
    ensures Agrees(Attached(s, c, r, target, session), n, q, x)
  {
    hide AnsweredWith;
    assert AnsweredWith(s.book.(callCmd := s.book.callCmd[c := s.mux.cmdId]), n, q, x) by { SameAnswers(s.book, c, s.mux.cmdId, n, q, x); }
  }

  lemma SameAnswers(b: Book, c: nat, id: int, n: nat, q: string, x: nat)
    requires AnsweredWith(b, n, q, x)
    ensures AnsweredWith(b.(callCmd := b.callCmd[c := id]), n, q, x)
    ensures forall f :: AnsweredWith(b.(failed := f), n, q, x)
  {
  }

  lemma PollAgrees(s: Mgr, w: nat, n: nat, q: string, x: nat)
    requires Agrees(s, n, q, x)
    ensures Agrees(Check(s, w), n, q, x)
  {
    hide AnsweredWith;
    CheckLeaves(s, w);
  }

  lemma FailAgrees(s: Mgr, c: nat, n: nat, q: string, x: nat)
    requires Agrees(s, n, q, x)
    ensures Agrees(Fail(s, c), n, q, x)
  {
  }

  lemma ReactAgrees(s: Mgr, id: int, ok: bool, data: Payload, n: nat, q: string, x: nat)
    requires CarriesOk(s.mux.pending, s.book) && id in s.mux.pending
    requires Agrees(s, n, q, x) && !(ok && s.mux.pending[id].Close? && s.mux.pending[id].ctx in s.pool.heap
                                     && s.pool.heap[s.mux.pending[id].ctx].platform == q)
    ensures Agrees(React(s, s.mux.pending[id], ok, data), n, q, x)
  {
    hide AnsweredWith;
    var h := s.mux.pending[id];
    match h
    case Create(c, r) =>
      SameAnswers(s.book, c, s.mux.cmdId, n, q, x);
    case Attach(c, r, target) =>
      hide Attached, Agrees;
      AttachedAgrees(s, c, r, target, data.text, n, q, x);
      assert Agrees(Fail(s, c), n, q, x) by { FailAgrees(s, c, n, q, x); }
    case AddScript(c, r, y) =>
      hide InstallContext, Destroy;
      ScriptAgrees(s, c, r, y, ok, n, q, x);
    case Close(_) =>
      hide ClearGuards;
    case Poll(w) =>
      hide Issue, Check;
      PollAgrees(s, w, n, q, x);
    case KeyDown(_, _) =>
    case _ =>
  }

  lemma InstallBook(s: Mgr, q: string, x: nat)
    ensures InstallContext(s, q, x).book == s.book && InstallContext(s, q, x).mux == s.mux
    ensures InstallContext(s, q, x).started == s.started
    ensures Destroy(s, x).book == s.book && Destroy(s, x).mux == s.mux && Destroy(s, x).started == s.started
    ensures Destroy(s, x).pool.contexts == s.pool.contexts
    ensures InstallContext(s, q, x).pool.contexts == s.pool.contexts[q := x]
  {
    hide ClearGuards;
    assert (s.pool.contexts - {q})[q := x] == s.pool.contexts[q := x];
  }

  lemma StepAgrees(s: Mgr, e: Event, n: nat, q: string, x: nat)
    requires Inv(s) && Agrees(s, n, q, x) && !Retires(s, e, q)
    ensures Agrees(Step(s, e), n, q, x)
  {
    var b := Before(s, e);
    var t := RunActs(b, Callback(s, e));
    StepSplits(s, e);
    BeforeAgrees(s, e, n, q, x);
    hide Before, Callback, Step, Agrees;
    RunActsAgrees(b, Callback(s, e), n, q, x);
    if e.Reply? { EraseAgrees(t, e.id, n, q, x); }
  }

  lemma EraseAgrees(s: Mgr, id: int, n: nat, q: string, x: nat)
    requires Agrees(s, n, q, x)
    ensures Agrees(Erase(s, id), n, q, x)
  {
  }

  lemma BeforeAgrees(s: Mgr, e: Event, n: nat, q: string, x: nat)
    requires Inv(s) && Agrees(s, n, q, x) && !Retires(s, e, q)
    ensures Agrees(Before(s, e), n, q, x)
  {
    hide EndsOk, WireOk, PendingOk, ScriptsOk, OwnerOk, FreedOk, CacheOk, TokenOk, PollsCarried, OutcomesOk, PollsOk,
         GuardsOk, RanOk, Evicts, Callback;
    match e
    case Reply(id, ok, data, dt, acts) =>
      if id in s.mux.pending {
        ReactAgrees(Answer(Tick(s, dt, true), id, ok), id, ok, data, n, q, x);
        hide React, AnsweredWith;
      }
    case Checked(w, dt, acts) =>
      hide AnsweredWith, Check;
      PollAgrees(Unpost(Tick(s, dt, false), w), w, n, q, x);
    case _ =>
      hide AnsweredWith, ClearGuards, Reset;
  }

  ghost predicate NeverRetires(s: Mgr, es: seq<Event>, q: string)
    decreases es
  {
    es == [] || (!Retires(s, es[0], q) && NeverRetires(Step(s, es[0]), es[1..], q))
  }

  lemma RunAgrees(s: Mgr, es: seq<Event>, n: nat, q: string, x: nat)
    requires Inv(s) && Agrees(s, n, q, x) && NeverRetires(s, es, q)
    ensures Agrees(Run(s, es), n, q, x)
    decreases es
  {
    if es != [] {
      StepInv(s, es[0]);
      StepAgrees(s, es[0], n, q, x);
      RunAgrees(Step(s, es[0]), es[1..], n, q, x);
    }
  }

  /** Once a context is cached for q and no acquisition for q is in flight, every later get_context
      for q is answered with that same context, which stays allocated, until it is closed or
      removed or stop() is called. */
  lemma CacheAgreement(s: Mgr, es: seq<Event>, q: string)
    requires Inv(s) && s.started && q in s.pool.contexts && Quiet(s.mux, q)
    requires NeverRetires(s, es, q)
    ensures var t := Run(s, es);
            && CachedUnder(t.pool, q, s.pool.contexts[q]) && s.pool.contexts[q] in t.pool.heap
            && forall c :: |s.book.calls| <= c < |t.book.calls| && t.book.calls[c] == q ==>
                 t.book.got[c] == 1 && c in t.book.result && t.book.result[c] == s.pool.contexts[q]
  {
    RunAgrees(s, es, |s.book.calls|, q, s.pool.contexts[q]);
    RunInv(s, es);
    var t := Run(s, es);
    hide Run, NeverRetires;
    forall c: nat ensures t.book.got[c] <= 1 {
      assert Ends(t.book, c) <= 1;
    }
  }
}
