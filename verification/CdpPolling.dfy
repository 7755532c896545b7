/** Polling ends, whatever else happens while it goes on. */
module CdpPolling {
  import opened CdpModel
  import opened CdpInvariants
  import opened CdpPreservation
  import opened CdpReplies
  import opened CdpTheorems
  import opened CdpCallbacks

  /** Time does not go back; a wait changes only by becoming done, and its poll times only grow. */
  ghost predicate WaitsAge(clock: nat, p: Poller, clock': nat, r: Poller) {
    && clock <= clock' && |p.waits| <= |r.waits| && |p.polls| <= |r.polls|
    && (forall w :: 0 <= w < |p.waits| ==>
          r.waits[w] == p.waits[w].(done := r.waits[w].done) && (p.waits[w].done ==> r.waits[w].done))
    && (forall w :: 0 <= w < |p.polls| ==> p.polls[w] <= r.polls[w])
  }

  lemma AgeTrans(c1: nat, p1: Poller, c2: nat, p2: Poller, c3: nat, p3: Poller)
    requires WaitsAge(c1, p1, c2, p2) && WaitsAge(c2, p2, c3, p3)
    ensures WaitsAge(c1, p1, c3, p3)
  {
  }

  lemma DoneAges(p: Poller, w: nat, found: multiset<nat>, timedOut: multiset<nat>, c: nat)
    requires w < |p.waits|
    ensures WaitsAge(c, p, c, SetDone(p, w).(found := found, timedOut := timedOut))
  {
  }

  lemma PolledAges(p: Poller, w: nat, t: nat, r: Poller, c: nat)
    requires w < |p.polls| && r.waits == p.waits && r.polls == p.polls[w := p.polls[w] + [t]]
    ensures WaitsAge(c, p, c, r)
  {
  }

  lemma SameAges(p: Poller, r: Poller, c: nat, c': nat)
    requires r.waits == p.waits && r.polls == p.polls && c <= c'
    ensures WaitsAge(c, p, c', r)
  {
  }

  lemma CheckAges(s: Mgr, w: nat)
    ensures WaitsAge(s.clock, s.poller, Check(s, w).clock, Check(s, w).poller)
  {
    var p := s.poller;
    hide Issue, WaitsAge;
    SameAges(p, p, s.clock, s.clock);
    if w < |p.waits| && w < |p.polls| {
      DoneAges(p, w, p.found, p.timedOut, s.clock);
      DoneAges(p, w, p.found, p.timedOut + multiset{w}, s.clock);
      PolledAges(p, w, s.clock, p.(waitCmd := p.waitCmd[w := s.mux.cmdId], polls := p.polls[w := p.polls[w] + [s.clock]]), s.clock);
      hide SetDone;
      DoneFields(p, w);
    }
  }

  lemma DoneFields(p: Poller, w: nat)
    requires w < |p.waits|
    ensures SetDone(p, w).found == p.found && SetDone(p, w).timedOut == p.timedOut
  {
  }

  lemma ReactAgesWaits(s: Mgr, h: Handler, ok: bool, data: Payload)
    ensures WaitsAge(s.clock, s.poller, React(s, h, ok, data).clock, React(s, h, ok, data).poller)
  {
    var p := s.poller;
    hide Issue, ClearGuards, Check, Attached, WaitsAge;
    SameAges(p, p, s.clock, s.clock);
    if h.Attach? {
      AttachedLeaves(s, h.call, h.platform, h.target, data.text);
      AttachedClock(s, h.call, h.platform, h.target, data.text);
    }
    if h.Poll? {
      CheckAges(s, h.wait);
      if h.wait < |p.waits| {
        DoneAges(p, h.wait, p.found + multiset{h.wait}, p.timedOut, s.clock);
        DoneFields(p, h.wait);
      }
    }
  }

  lemma AttachedClock(s: Mgr, c: nat, q: string, target: string, session: string)
    ensures Attached(s, c, q, target, session).clock == s.clock
  {
    hide Issue;
  }

  lemma StepAgesWaits(s: Mgr, e: Event)
    ensures WaitsAge(s.clock, s.poller, Step(s, e).clock, Step(s, e).poller)
  {
    var b := Before(s, e);
    StepFrame(s, e);
    BeforeAgesWaits(s, e);
    hide Before, Step;
    assert WaitsAge(b.clock, b.poller, Step(s, e).clock, Step(s, e).poller);
    AgeTrans(s.clock, s.poller, b.clock, b.poller, Step(s, e).clock, Step(s, e).poller);
  }

  lemma BeforeAgesWaits(s: Mgr, e: Event)
    ensures WaitsAge(s.clock, s.poller, Before(s, e).clock, Before(s, e).poller)
  {
    hide Issue, Check, React, ClearGuards, Open, Reset, WaitsAge;
    match e
    case Reply(id, ok, data, dt, acts) =>
      var s1 := Answer(Tick(s, dt, true), id, ok);
      SameAges(s.poller, s1.poller, s.clock, s1.clock);
      if id in s.mux.pending {
        var t := React(s1, s.mux.pending[id], ok, data);
        ReactAgesWaits(s1, s.mux.pending[id], ok, data);
        AgeTrans(s.clock, s.poller, s1.clock, s1.poller, t.clock, t.poller);
      }
    case Checked(w, dt, acts) =>
      var s1 := Unpost(Tick(s, dt, false), w);
      SameAges(s.poller, s1.poller, s.clock, s1.clock);
      SameAges(s.poller, Tick(s, dt, false).poller, s.clock, s1.clock);
      CheckAges(s1, w);
      AgeTrans(s.clock, s.poller, s1.clock, s1.poller, Check(s1, w).clock, Check(s1, w).poller);
    case _ =>
      SameAges(s.poller, Before(s, e).poller, s.clock, Before(s, e).clock);
  }

  lemma RunAgesWaits(s: Mgr, es: seq<Event>)
    ensures WaitsAge(s.clock, s.poller, Run(s, es).clock, Run(s, es).poller)
    decreases es
  {
    if es != [] {
      var t := Step(s, es[0]);
      StepAgesWaits(s, es[0]);
      RunAgesWaits(t, es[1..]);
      hide WaitsAge, Step;
      AgeTrans(s.clock, s.poller, t.clock, t.poller, Run(s, es).clock, Run(s, es).poller);
    }
  }

  /** Wait w has polled: its check is not in the post queue any more. */
  ghost predicate Polled(s: Mgr, w: nat) {
    Inv(s) && w < |s.poller.waits| && w < |s.poller.polls| && s.poller.polls[w] != []
  }

  /** Such a wait is done or has an evaluate outstanding. */
  lemma PolledToken(s: Mgr, w: nat)
    requires Polled(s, w)
    ensures s.poller.waits[w].done != Outstanding(s.mux.pending, s.poller.waitCmd, w)
  {
    assert PollTimes(s.poller.waits[w], s.poller.posted[w] > 0, s.poller.polls[w], s.clock, s.poller.stalled);
    hide PendingOk, WireOk, CarriesOk, EndsOk, ScriptsOk, OwnerOk, FreedOk, CacheOk, OutcomesOk, PollsOk, GuardsOk,
         RanOk;
  }

  function Deadline(s: Mgr, w: nat): int
    requires w < |s.poller.waits|
  {
    s.poller.waits[w].start + Int64(s.poller.waits[w].timeout)
  }

  /** The wait is done, with exactly one outcome unless its context was closed or freed. */
  ghost predicate Ended(t: Mgr, w: nat) {
    && w < |t.poller.waits| && t.poller.waits[w].done
    && (t.poller.waits[w].ctx in t.pool.heap && !t.pool.heap[t.poller.waits[w].ctx].closed ==>
          t.poller.found[w] + t.poller.timedOut[w] == 1)
  }

  /** Any events, and then an answer to the evaluate of a wait, with what its callback does. */
  datatype Round = Round(others: seq<Event>, ok: bool, data: Payload, dt: nat, acts: seq<Act>)

  /** The browser answers an evaluate of w round after round, as long as one is outstanding. */
  ghost function Answering(s: Mgr, w: nat, rounds: seq<Round>): Mgr
    decreases rounds
  {
    if rounds == [] then s
    else
      var r := rounds[0];
      var t := Run(s, r.others);
      if !Outstanding(t.mux.pending, t.poller.waitCmd, w) then t
      else Answering(Step(t, Reply(t.poller.waitCmd[w], r.ok, r.data, r.dt, r.acts)), w, rounds[1..])
  }

  lemma StillPolled(s: Mgr, t: Mgr, w: nat)
    requires Polled(s, w) && Inv(t) && WaitsAge(s.clock, s.poller, t.clock, t.poller)
    ensures Polled(t, w) && Deadline(t, w) == Deadline(s, w) && s.clock <= t.clock
    ensures s.poller.waits[w].done ==> t.poller.waits[w].done
  {
    hide Inv;
    assert s.poller.polls[w] <= t.poller.polls[w];
  }

  /** One round ends the wait, or a further evaluate is outstanding and time has moved on. */
  lemma OneRound(t: Mgr, w: nat, r: Round)
    requires Polled(t, w) && Outstanding(t.mux.pending, t.poller.waitCmd, w)
    ensures var u := Step(t, Reply(t.poller.waitCmd[w], r.ok, r.data, r.dt, r.acts));
            && Polled(u, w) && Deadline(u, w) == Deadline(t, w)
            && (u.poller.waits[w].done || t.clock + r.dt < Deadline(t, w))
            && u.clock == t.clock + r.dt
  {
    hide Inv, Step;
    var id := t.poller.waitCmd[w];
    var e := Reply(id, r.ok, r.data, r.dt, r.acts);
    assert CarriesWait(t.mux, id, w);
    PollAdvances(t, id, r.ok, r.data, r.dt, r.acts, w);
    StepInv(t, e);
    StepAgesWaits(t, e);
    StillPolled(t, Step(t, e), w);
    ReplyClock(t, id, r.ok, r.data, r.dt, r.acts, w);
    hide WaitsAge;
  }

  lemma ReplyClock(s: Mgr, id: int, ok: bool, data: Payload, dt: nat, acts: seq<Act>, w: nat)
    requires id in s.mux.pending && s.mux.pending[id] == Poll(w)
    ensures Step(s, Reply(id, ok, data, dt, acts)).clock == s.clock + dt
  {
    StepFrame(s, Reply(id, ok, data, dt, acts));
    var s1 := Answer(Tick(s, dt, true), id, ok);
    CheckLeaves(s1, w);
    hide Issue, Check, Step;
  }

  /** If the browser keeps answering, with at least a millisecond before each answer, then a wait
      that has polled is done after at most as many answers as there are milliseconds left to its
      deadline (and one at least), whatever else happens between them; unless its context was closed
      or freed, exactly one of on_found and on_timeout has run. */
  lemma {:induction false} PollingEnds(s: Mgr, w: nat, rounds: seq<Round>)
    requires Polled(s, w) && rounds != [] && s.clock + |rounds| >= Deadline(s, w)
    requires forall i :: 0 <= i < |rounds| ==> rounds[i].dt >= 1
    ensures Ended(Answering(s, w, rounds), w)
    decreases rounds
  {
    hide Inv, Run, Step, WaitsAge, Ended;
    var r := rounds[0];
    var t := Run(s, r.others);
    RunInv(s, r.others);
    RunAgesWaits(s, r.others);
    StillPolled(s, t, w);
    PolledToken(t, w);
    if !Outstanding(t.mux.pending, t.poller.waitCmd, w) {
      DoneHasOutcome(t, w);
    } else {
      OneRound(t, w, r);
      var u := Step(t, Reply(t.poller.waitCmd[w], r.ok, r.data, r.dt, r.acts));
      if u.poller.waits[w].done {
        DoneStays(u, w, rounds[1..]);
      } else {
        PollingEnds(u, w, rounds[1..]);
      }
    }
  }

  lemma DoneHasOutcome(t: Mgr, w: nat)
    requires Inv(t) && w < |t.poller.waits| && t.poller.waits[w].done
    ensures Ended(t, w) && !Outstanding(t.mux.pending, t.poller.waitCmd, w)
  {
    hide PendingOk, WireOk, CarriesOk, EndsOk, ScriptsOk, OwnerOk, FreedOk, CacheOk, PollsOk, GuardsOk, RanOk,
         Outstanding;
    assert OutcomeOk(t.poller, t.pool, w);
    assert t.poller.posted[w] >= 0;
  }

  lemma DoneStays(s: Mgr, w: nat, rounds: seq<Round>)
    requires Inv(s) && w < |s.poller.waits| && s.poller.waits[w].done
    ensures Ended(Answering(s, w, rounds), w)
  {
    DoneHasOutcome(s, w);
    if rounds != [] {
      var t := Run(s, rounds[0].others);
      RunInv(s, rounds[0].others);
      RunAgesWaits(s, rounds[0].others);
      assert t.poller.waits[w].done;
      hide Inv, Run, Step, WaitsAge;
      DoneHasOutcome(t, w);
    }
  }

  // ---- from the start of a wait ----

  /** A wait has its first check posted, or has polled, or is done. */
  ghost predicate Begun(s: Mgr, w: nat) {
    && Inv(s) && w < |s.poller.waits| && w < |s.poller.polls|
    && (w in s.poller.posted || s.poller.polls[w] != [] || s.poller.waits[w].done)
  }

  lemma CheckBegins(s: Mgr, w: nat)
    requires w < |s.poller.waits| && w < |s.poller.polls|
    ensures var p := Check(s, w).poller;
            w < |p.waits| && w < |p.polls| && (p.waits[w].done || p.polls[w] != [])
  {
    EndsWait(s, w);
    PollsOnce(s, w, if s.poller.waits[w].ctx in s.pool.heap then s.pool.heap[s.poller.waits[w].ctx].session else "");
    hide GiveUp, TimeOut, IssuePoll, Expired;
  }

  lemma EndsWait(s: Mgr, w: nat)
    requires w < |s.poller.waits| && w < |s.poller.polls|
    ensures var p, q := GiveUp(s, w).poller, TimeOut(s, w).poller;
            && w < |p.waits| && w < |p.polls| && p.waits[w].done && w < |q.waits| && w < |q.polls| && q.waits[w].done
  {
  }

  lemma PollsOnce(s: Mgr, w: nat, session: string)
    requires w < |s.poller.waits| && w < |s.poller.polls|
    ensures var p := IssuePoll(s, w, session).poller;
            w < |p.waits| && w < |p.polls| && p.polls[w] != []
  {
    hide Issue;
  }

  lemma PostedLeft(s: Mgr, v: nat)
    ensures Check(s, v).poller.posted == s.poller.posted
  {
    hide Issue;
  }

  lemma ReactPosted(s: Mgr, h: Handler, ok: bool, data: Payload)
    ensures React(s, h, ok, data).poller.posted == s.poller.posted
  {
    hide Issue, ClearGuards, Check, Attached;
    if h.Attach? { AttachedLeaves(s, h.call, h.platform, h.target, data.text); }
    if h.Poll? { PostedLeft(s, h.wait); }
  }

  /** Only its own check takes a wait out of the post queue. */
  lemma BeforePosted(s: Mgr, e: Event, w: nat)
    requires w in s.poller.posted && !(e.Checked? && e.wait == w)
    ensures w in Before(s, e).poller.posted
  {
    hide Issue, ClearGuards, React, Check, Open, Reset;
    match e
    case Reply(id, ok, data, dt, acts) =>
      if id in s.mux.pending { ReactPosted(Answer(Tick(s, dt, true), id, ok), s.mux.pending[id], ok, data); }
    case Checked(v, dt, acts) => PostedLeft(Unpost(Tick(s, dt, false), v), v);
    case _ =>
  }

  lemma StepBegun(s: Mgr, e: Event, w: nat)
    requires Begun(s, w)
    ensures Begun(Step(s, e), w)
    ensures e.Checked? && e.wait == w && w in s.poller.posted ==> w !in Step(s, e).poller.posted
  {
    StepInv(s, e);
    StepAgesWaits(s, e);
    StepFrame(s, e);
    PolledEqually(s);
    hide Inv;
    if w in s.poller.posted {
      if e.Checked? && e.wait == w {
        CheckedBegins(s, w, e.dt, e.acts);
      } else {
        BeforePosted(s, e, w);
        BeforeAgesWaits(s, e);
        hide Before, Step;
      }
    } else {
      hide Before, Step;
    }
  }

  /** The first check ends the wait or issues its first evaluate. */
  lemma CheckedBegins(s: Mgr, w: nat, dt: nat, acts: seq<Act>)
    requires Begun(s, w) && w in s.poller.posted
    ensures var p := Step(s, Checked(w, dt, acts)).poller;
            && w !in p.posted && w < |p.waits| && w < |p.polls| && (p.waits[w].done || p.polls[w] != [])
  {
    hide Inv, Step;
    var e := Checked(w, dt, acts);
    var s1 := Unpost(Tick(s, dt, false), w);
    StepFrame(s, e);
    PostedOnce(s, w);
    CheckBegins(s1, w);
    PostedLeft(s1, w);
    CheckAges(s1, w);
    assert Before(s, e) == Check(s1, w) && w !in s1.poller.posted;
    hide Before, Check, WaitsAge, MuxFrame, PoolFrame, TimersFrame;
  }

  lemma PostedOnce(s: Mgr, w: nat)
    requires Inv(s) && w in s.poller.posted
    ensures s.poller.posted[w] == 1
  {
    hide PendingOk, WireOk, CarriesOk, EndsOk, ScriptsOk, OwnerOk, FreedOk, CacheOk, OutcomesOk, PollsOk, GuardsOk,
         RanOk, Outstanding;
  }

  lemma RunBegun(s: Mgr, es: seq<Event>, w: nat)
    requires Begun(s, w)
    ensures Begun(Run(s, es), w)
    decreases es
  {
    if es != [] {
      StepBegun(s, es[0], w);
      hide Begun, Step;
      RunBegun(Step(s, es[0]), es[1..], w);
    }
  }

  /** The scheduler runs the first check of wait w, unless it did so already. */
  ghost function FirstCheck(s: Mgr, w: nat, dt: nat, acts: seq<Act>): Mgr {
    if w in s.poller.posted then Step(s, Checked(w, dt, acts)) else s
  }

  /** From its start every wait ends: whatever happens until its first check runs, and whatever happens
      between the answers after that, it is done after at most as many answers, at least a millisecond
      apart, as milliseconds are then left to its deadline (and one at least); unless its context was
      closed or freed, exactly one of on_found and on_timeout has run. */
  lemma WaitEnds(s: Mgr, w: nat, others: seq<Event>, dt: nat, acts: seq<Act>, rounds: seq<Round>)
    requires Inv(s) && w < |s.poller.waits| && w in s.poller.posted
    requires rounds != [] && FirstCheck(Run(s, others), w, dt, acts).clock + |rounds| >= Deadline(s, w)
    requires forall i :: 0 <= i < |rounds| ==> rounds[i].dt >= 1
    ensures Ended(Answering(FirstCheck(Run(s, others), w, dt, acts), w, rounds), w)
  {
    hide Inv, Run, Step;
    var t0 := Run(s, others);
    var t := FirstCheck(t0, w, dt, acts);
    StartBegun(s, w);
    RunBegun(s, others, w);
    StepBegun(t0, Checked(w, dt, acts), w);
    assert Begun(t, w) && w !in t.poller.posted;
    assert Deadline(t, w) == Deadline(s, w) by {
      RunAgesWaits(s, others);
      StepAgesWaits(t0, Checked(w, dt, acts));
      hide Begun;
    }
    hide FirstCheck, Ended, Deadline;
    if t.poller.waits[w].done { DoneStays(t, w, rounds); } else { PollingEnds(t, w, rounds); }
  }

  lemma StartBegun(s: Mgr, w: nat)
    requires Inv(s) && w in s.poller.posted
    ensures Begun(s, w)
  {
    PolledEqually(s);
    hide PendingOk, WireOk, CarriesOk, EndsOk, ScriptsOk, OwnerOk, FreedOk, CacheOk, OutcomesOk, PollsOk, GuardsOk,
         RanOk, Outstanding;
    assert s.poller.posted[w] >= 1;
  }

  /** An open context's wait_for_selector starts a wait in that state. */
  lemma WaitStarts(s: Mgr, x: nat, css: string, timeout: nat, inner: seq<Act>)
    requires Inv(s) && Usable(s.pool, x) && !s.pool.heap[x].closed
    ensures var t := RunAct(s, WaitFor(x, css, timeout, inner)); var w := |s.poller.waits|;
            && Inv(t) && w in t.poller.posted && |t.poller.waits| == w + 1
            && t.poller.waits[w] == Wait(x, css, s.clock, timeout, false)
  {
    hide Inv;
    RunActInv(s, WaitFor(x, css, timeout, inner));
  }
}
