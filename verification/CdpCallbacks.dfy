/** wait_for_selector, deferred callbacks, and pointers to contexts that are gone. */
module CdpCallbacks {
  import opened CdpModel
  import opened CdpInvariants
  import opened CdpReplies
  import opened CdpTheorems

  // ---- wait_for_selector ----

  ghost predicate CarriesWait(m: Mux, i: int, w: nat) {
    i in m.pending && m.pending[i] == Poll(w)
  }

  lemma OutstandingCarries(m: Mux, waitCmd: map<nat, int>, w: nat)
    requires PollsCarried(m.pending, waitCmd)
    ensures (exists i :: CarriesWait(m, i, w)) <==> Outstanding(m.pending, waitCmd, w)
  {
    if Outstanding(m.pending, waitCmd, w) {
      assert CarriesWait(m, waitCmd[w], w);
    }
  }

  /** Over every run each wait has one token: one posted check, one outstanding evaluate, or done.
      At most one of on_found and on_timeout runs, and only with the token at done. */
  lemma OneToken(es: seq<Event>, w: nat)
    requires w < |Run(Init(), es).poller.waits|
    ensures var s := Run(Init(), es);
            var outstanding := exists i :: CarriesWait(s.mux, i, w);
            && s.poller.posted[w] + (if outstanding then 1 else 0) + (if s.poller.waits[w].done then 1 else 0) == 1
            && (forall i, j :: CarriesWait(s.mux, i, w) && CarriesWait(s.mux, j, w) ==> i == j)
            && s.poller.found[w] + s.poller.timedOut[w] <= if s.poller.waits[w].done then 1 else 0
  {
    InitInv();
    RunInv(Init(), es);
    var s := Run(Init(), es);
    hide Run, PendingOk, WireOk, CarriesOk, EndsOk, ScriptsOk, OwnerOk, FreedOk, CacheOk, PollsOk, GuardsOk, RanOk;
    assert OutcomeOk(s.poller, s.pool, w);
    OutstandingCarries(s.mux, s.poller.waitCmd, w);
  }

  /** The `if (*done) return;` guards in the reply handlers, and the first half of the one in the
      check, are never taken. */
  lemma DoneGuardsNeverTaken(s: Mgr, w: nat)
    requires Inv(s)
    requires w in s.poller.posted || exists i :: CarriesWait(s.mux, i, w)
    ensures w < |s.poller.waits| && !s.poller.waits[w].done
  {
    hide PendingOk, WireOk, CarriesOk, EndsOk, ScriptsOk, OwnerOk, FreedOk, CacheOk, OutcomesOk, PollsOk, GuardsOk,
         RanOk;
    OutstandingCarries(s.mux, s.poller.waitCmd, w);
  }

  /** A wait with no posted check and no outstanding evaluate has had exactly one outcome, unless
      its context was closed or freed meanwhile. */
  lemma WaitSettles(es: seq<Event>, w: nat)
    requires var s := Run(Init(), es);
             w < |s.poller.waits| && w !in s.poller.posted && forall i :: !CarriesWait(s.mux, i, w)
    ensures var s := Run(Init(), es);
            var x := s.poller.waits[w].ctx;
            && s.poller.waits[w].done
            && (x in s.pool.heap && !s.pool.heap[x].closed ==> s.poller.found[w] + s.poller.timedOut[w] == 1)
  {
    InitInv();
    RunInv(Init(), es);
    var s := Run(Init(), es);
    hide Run, PendingOk, WireOk, CarriesOk, EndsOk, ScriptsOk, OwnerOk, FreedOk, CacheOk, PollsOk, GuardsOk, RanOk;
    OutstandingCarries(s.mux, s.poller.waitCmd, w);
    assert OutcomeOk(s.poller, s.pool, w);
  }

  /** Strictly increasing numbers in [lo, hi) are at most hi - lo many. */
  lemma {:induction false} IncreasingBound(ts: seq<nat>, lo: int, hi: int)
    requires forall k :: 0 <= k < |ts| ==> lo <= ts[k] < hi
    requires forall j, k :: 0 <= j < k < |ts| ==> ts[j] < ts[k]
    ensures ts == [] || |ts| <= hi - lo
  {
    if |ts| > 1 {
      var n := |ts| - 1;
      IncreasingBound(ts[..n], lo, ts[n]);
    } else {
      assert ts != [] ==> lo <= ts[0] < hi;
    }
  }

  lemma PollTimesBound(t: Wait, unpolled: bool, ts: seq<nat>, clock: nat, stalled: bool)
    requires PollTimes(t, unpolled, ts, clock, stalled)
    ensures Int64(t.timeout) <= t.timeout
    ensures Int64(t.timeout) <= 0 ==> ts == []
    ensures !stalled ==> |ts| <= t.timeout
  {
    if ts != [] {
      assert t.start <= ts[0] && ts[0] - t.start < Int64(t.timeout);
      if !stalled {
        IncreasingBound(ts, t.start, t.start + Int64(t.timeout));
      }
    }
  }

  /** The conversion of timeout_ms keeps values below 2^63 and makes the others negative. */
  lemma DeadlineValues(t: Wait, clock: nat)
    requires t.timeout < 0x1_0000_0000_0000_0000
    ensures t.timeout < 0x8000_0000_0000_0000 ==> Int64(t.timeout) == t.timeout && (Expired(t, clock) <==> clock >= t.start + t.timeout)
    ensures t.timeout >= 0x8000_0000_0000_0000 ==> Int64(t.timeout) == t.timeout - 0x1_0000_0000_0000_0000 < 0
  {
  }

  /** Every reply comes at least a millisecond after what happened before it. */
  ghost predicate Spaced(es: seq<Event>) {
    forall i :: 0 <= i < |es| && es[i].Reply? ==> es[i].dt >= 1
  }

  lemma StepStalled(s: Mgr, e: Event)
    ensures Step(s, e).poller.stalled <==> s.poller.stalled || (e.Reply? && e.dt == 0)
  {
    StepFrame(s, e);
    BeforeStalled(s, e);
    hide Step, Before;
  }

  lemma BeforeStalled(s: Mgr, e: Event)
    ensures Before(s, e).poller.stalled <==> s.poller.stalled || (e.Reply? && e.dt == 0)
  {
    hide Issue, ClearGuards, React, Check, Open, Reset;
    match e
    case Reply(id, ok, data, dt, acts) =>
      if id in s.mux.pending { ReactStalled(Answer(Tick(s, dt, true), id, ok), s.mux.pending[id], ok, data); }
    case Checked(w, dt, acts) => CheckStalled(Unpost(Tick(s, dt, false), w), w);
    case _ =>
  }

  lemma CheckStalled(s: Mgr, w: nat)
    ensures Check(s, w).poller.stalled == s.poller.stalled
  {
    hide Issue;
  }

  lemma ReactStalled(s: Mgr, h: Handler, ok: bool, data: Payload)
    ensures React(s, h, ok, data).poller.stalled == s.poller.stalled
  {
    hide Issue, ClearGuards, Check, Attached;
    if h.Attach? { AttachedLeaves(s, h.call, h.platform, h.target, data.text); }
    if h.Poll? { CheckStalled(s, h.wait); }
  }

  lemma {:induction false} RunStalled(s: Mgr, es: seq<Event>)
    ensures Run(s, es).poller.stalled <==> s.poller.stalled || !Spaced(es)
    decreases es
  {
    if es != [] {
      StepStalled(s, es[0]);
      hide Step;
      RunStalled(Step(s, es[0]), es[1..]);
      assert Spaced(es) <==> Spaced(es[1..]) && !(es[0].Reply? && es[0].dt == 0) by {
        assert es == [es[0]] + es[1..];
        assert forall i :: 0 <= i < |es[1..]| ==> es[1..][i] == es[i + 1];
      }
    }
  }

  /** No evaluate is issued at or after the deadline; none at all for a timeout of 0 or of 2^63 ms
      and more; and if every reply takes at least a millisecond, there are at most timeout_ms of them. */
  lemma PollsBounded(es: seq<Event>, w: nat)
    requires w < |Run(Init(), es).poller.waits|
    ensures var s := Run(Init(), es);
            var t := s.poller.waits[w];
            && w < |s.poller.polls|
            && (t.timeout < 0x8000_0000_0000_0000 ==>
                  forall k :: 0 <= k < |s.poller.polls[w]| ==> s.poller.polls[w][k] < t.start + t.timeout)
            && (t.timeout == 0 || 0x8000_0000_0000_0000 <= t.timeout < 0x1_0000_0000_0000_0000 ==> s.poller.polls[w] == [])
            && (Spaced(es) ==> |s.poller.polls[w]| <= s.poller.waits[w].timeout)
  {
    InitInv();
    RunInv(Init(), es);
    RunStalled(Init(), es);
    var s := Run(Init(), es);
    hide Run, PendingOk, WireOk, CarriesOk, EndsOk, ScriptsOk, OwnerOk, FreedOk, CacheOk, OutcomesOk, TokenOk,
         PollsCarried, GuardsOk, RanOk;
    var t := s.poller.waits[w];
    if t.timeout < 0x1_0000_0000_0000_0000 { DeadlineValues(t, 0); }
    hide Int64;
    assert PollTimes(t, s.poller.posted[w] > 0, s.poller.polls[w], s.clock, s.poller.stalled);
    PollTimesBound(t, s.poller.posted[w] > 0, s.poller.polls[w], s.clock, s.poller.stalled);
  }

  /** What answering an evaluate of wait w does to it, from poller p to poller r. */
  ghost predicate Advances(s: Mgr, w: nat, found: bool, p: Poller, r: Poller) {
    && w < |p.waits| && w < |p.polls| && w < |r.waits| && w < |r.polls|
    && var t := p.waits[w];
       var ends := found || t.ctx !in s.pool.heap || s.pool.heap[t.ctx].closed || Expired(t, s.clock);
       && r.waits[w].done == ends
       && r.polls[w] == (if ends then p.polls[w] else p.polls[w] + [s.clock])
       && r.found[w] == p.found[w] + (if found then 1 else 0)
       && r.timedOut[w] == p.timedOut[w] + if !found && Late(s, w, p) then 1 else 0
  }

  /** The context of the wait is open, and its deadline has passed. */
  ghost predicate Late(s: Mgr, w: nat, p: Poller)
    requires w < |p.waits|
  {
    var t := p.waits[w];
    t.ctx in s.pool.heap && !s.pool.heap[t.ctx].closed && Expired(t, s.clock)
  }

  lemma ReactAdvances(s: Mgr, w: nat, ok: bool, data: Payload)
    requires w < |s.poller.waits| && w < |s.poller.polls| && !s.poller.waits[w].done
    ensures Advances(s, w, ok && data.found, s.poller, React(s, Poll(w), ok, data).poller)
  {
    hide Issue;
  }

  lemma AdvancesFrame(s: Mgr, w: nat, found: bool, p: Poller, r: Poller, r': Poller)
    requires Advances(s, w, found, p, r) && PollerFrame(r, r')
    ensures Advances(s, w, found, p, r')
  {
  }

  /** An answered evaluate ends its wait exactly when the selector was found, the deadline has
      passed, or the context is closed or gone: through on_found in the first case, through on_timeout
      exactly when it was not found and the context is open, and silently otherwise.  If it does not end,
      exactly one more evaluate follows. */
  lemma PollAdvances(s: Mgr, id: int, ok: bool, data: Payload, dt: nat, acts: seq<Act>, w: nat)
    requires Inv(s) && CarriesWait(s.mux, id, w)
    ensures Advances(Tick(s, dt, true), w, ok && data.found, s.poller, Step(s, Reply(id, ok, data, dt, acts)).poller)
  {
    hide Inv, Step, React;
    var e := Reply(id, ok, data, dt, acts);
    DoneGuardsNeverTaken(s, w);
    StepFrame(s, e);
    var s1 := Answer(Tick(s, dt, true), id, ok);
    hide MuxFrame, PoolFrame, TimersFrame, Expired;
    PolledEqually(s);
    ReactAdvances(s1, w, ok, data);
    AdvancesFrame(s1, w, ok && data.found, s1.poller, Before(s, e).poller, Step(s, e).poller);
  }

  /** A posted check does the same, as after an evaluate that found nothing. */
  lemma CheckAdvances(s: Mgr, w: nat, dt: nat, acts: seq<Act>)
    requires Inv(s) && w in s.poller.posted
    ensures Advances(Tick(s, dt, false), w, false, s.poller, Step(s, Checked(w, dt, acts)).poller)
  {
    var e := Checked(w, dt, acts);
    hide Inv, Step;
    DoneGuardsNeverTaken(s, w);
    StepFrame(s, e);
    PolledEqually(s);
    CheckedAdvances(s, w, dt);
    hide Check;
    AdvancesFrame(Tick(s, dt, false), w, false, s.poller, Before(s, e).poller, Step(s, e).poller);
  }

  lemma CheckedAdvances(s: Mgr, w: nat, dt: nat)
    requires w < |s.poller.waits| == |s.poller.polls| && !s.poller.waits[w].done
    ensures var s1 := Tick(s, dt, false); Advances(s1, w, false, s.poller, Check(Unpost(s1, w), w).poller)
  {
    hide Issue;
  }

  lemma PolledEqually(s: Mgr)
    requires Inv(s)
    ensures |s.poller.polls| == |s.poller.waits|
  {
  }

  // ---- deferred callbacks ----

  /** The one-shot of `after` runs its callback exactly when it is armed and the context that
      deferred it is still live. */
  lemma DeferredRunsIffLive(s: Mgr, g: nat, acts: seq<Act>)
    requires Inv(s)
    ensures var live := g in s.timers.armed && g < |s.timers.owner| && s.timers.owner[g] in s.pool.heap;
            && FiresCallback(s, g) == live
            && Step(s, Fired(g, acts)).timers.ran == s.timers.ran + if live then multiset{g} else multiset{}
  {
    StepFrame(s, Fired(g, acts));
    hide PendingOk, WireOk, CarriesOk, EndsOk, ScriptsOk, OwnerOk, FreedOk, CacheOk, OutcomesOk, PollsOk, TokenOk,
         PollsCarried;
  }

  lemma DeferredAtMostOnce(es: seq<Event>, g: nat)
    ensures Run(Init(), es).timers.ran[g] <= 1
  {
    InitInv();
    RunInv(Init(), es);
  }

  /** Contexts are never revived, and only a one-shot whose flag is set runs a callback. */
  ghost predicate Ages(s: Mgr, t: Mgr, g: nat, runs: bool) {
    && s.pool.nextPtr <= t.pool.nextPtr
    && (forall x :: x in t.pool.heap && x < s.pool.nextPtr ==> x in s.pool.heap)
    && s.timers.owner <= t.timers.owner
    && (!runs ==> t.timers.ran[g] == s.timers.ran[g])
  }

  lemma ReactAges(s: Mgr, h: Handler, ok: bool, data: Payload, g: nat)
    ensures Ages(s, React(s, h, ok, data), g, false)
  {
    hide Issue, Check, ClearGuards;
    if h.Poll? { CheckLeaves(s, h.wait); }
  }

  lemma StepAges(s: Mgr, e: Event, g: nat)
    ensures Ages(s, Step(s, e), g, e.Fired? && e.guard == g && FiresCallback(s, g))
  {
    StepFrame(s, e);
    BeforeAges(s, e, g);
    hide Step, Before;
  }

  lemma BeforeAges(s: Mgr, e: Event, g: nat)
    ensures Ages(s, Before(s, e), g, e.Fired? && e.guard == g && FiresCallback(s, g))
  {
    hide Issue, Check, React, ClearGuards, Open, Reset;
    match e
    case Reply(id, ok, data, dt, acts) =>
      if id in s.mux.pending {
        hide Answer, Tick, Ages;
        var s1 := Answer(Tick(s, dt, true), id, ok);
        ReactAges(s1, s.mux.pending[id], ok, data, g);
        TickAges(s, dt, id, ok, s1, React(s1, s.mux.pending[id], ok, data), g);
      }
    case Checked(w, dt, acts) =>
      CheckLeaves(Unpost(Tick(s, dt, false), w), w);
    case _ =>
  }

  lemma TickAges(s: Mgr, dt: nat, id: int, ok: bool, s1: Mgr, t: Mgr, g: nat)
    requires s1 == Answer(Tick(s, dt, true), id, ok) && Ages(s1, t, g, false)
    ensures Ages(s, t, g, false)
  {
  }

  /** Whichever way a context was freed, by replacement, a close reply, an add-script error or
      stop(), a callback deferred through it never runs afterwards. */
  lemma FreedNeverRuns(s: Mgr, es: seq<Event>, g: nat)
    requires Inv(s) && g < |s.timers.owner| && s.timers.owner[g] !in s.pool.heap
    ensures Run(s, es).timers.ran[g] == s.timers.ran[g]
    decreases es
  {
    if es != [] {
      StepInv(s, es[0]);
      StepAges(s, es[0], g);
      assert !FiresCallback(s, g) && s.timers.owner[g] < s.pool.nextPtr;
      FreedNeverRuns(Step(s, es[0]), es[1..], g);
    }
  }
}
