/**
  The browser manager and its scheduler in one run.  The manager's events and callbacks make their
  calls on the scheduler; the scheduler decides when a one-shot expires, and that is the only way a
  deferred callback is reached.  What the manager's model assumes of its one-shots is proved here.
 */
module Joint {
  import C = CdpModel
  import I = CdpInvariants
  import T = CdpTheorems
  import D = CdpCallbacks
  import R = CdpReplies
  import opened UvModel
  import opened UvInvariants
  import opened UvTheorems
  import opened OneShots

  // ---- the calls the manager makes on its scheduler ----

  /** What one call of a callback asks of the scheduler.  A posted check is a callback of which the
      scheduler knows the number only: what it does is an event of the manager. */
  function Asks(m: C.Mgr, a: C.Act): seq<Act> {
    match a
    case After(x) => if C.Usable(m.pool, x) then [Act.After] else []
    case WaitFor(x, _, _, _) =>
      if C.Usable(m.pool, x) && !m.pool.heap[x].closed then [Post(Callback(|m.poller.waits|, []))] else []
    case StartManager => if m.started then [] else [Act.Start]
    case StopManager => if m.started then [Act.Stop] else []
    case _ => []
  }

  /** What a callback asks of the scheduler, nested callbacks included. */
  function Calls(m: C.Mgr, acts: seq<C.Act>): seq<Act>
    decreases acts, 0
  {
    if acts == [] then [] else CallsOne(m, acts[0]) + Calls(C.RunAct(m, acts[0]), acts[1..])
  }

  function CallsOne(m: C.Mgr, a: C.Act): seq<Act>
    decreases a, 1
  {
    Asks(m, a) + if C.AtOnce(m, a) then Calls(C.Enter(m, a), a.inner) else []
  }

  /** What start() and stop() ask of the scheduler. */
  function OwnCalls(m: C.Mgr, e: C.Event): seq<Act> {
    if e.Start? && !m.started then [Act.Start] else if e.Stop? && m.started then [Act.Stop] else []
  }

  /** What an event of the manager asks of the scheduler, its callback included. */
  function CallsOf(m: C.Mgr, e: C.Event): seq<Act> {
    OwnCalls(m, e) + Calls(T.Before(m, e), T.Callback(m, e))
  }

  // ---- the joint machine ----

  /** names[g] is the scheduler's context of the callback that the manager deferred as number g. */
  datatype Joint = Joint(m: C.Mgr, s: Uv, names: seq<nat>)

  datatype JointEvent =
    | Manages(handled: C.Event)                // the manager handles an event that is not a timer's
    | Expires(guard: nat, acts: seq<C.Act>)    // libuv expires the timer of a deferred callback
    | Schedules(scheduled: Event)              // anything else the scheduler does

  function InitJoint(): Joint {
    Joint(C.Init(), Init(), [])
  }

  /** The contexts registered by after while the scheduler performs `calls`. */
  function NamesAfter(s: Uv, names: seq<nat>, calls: seq<Act>): seq<nat>
    decreases calls
  {
    if calls == [] then names
    else NamesAfter(Perform(s, calls[0]), if calls[0].After? then names + [|s.kinds|] else names, calls[1..])
  }

  /** The lambda that after handed to the scheduler: it looks at its flag, and at nothing else. */
  function RunLambda(m: C.Mgr, g: nat, acts: seq<C.Act>): C.Mgr {
    C.RunActs(Reached(m, g), LambdaActs(m, g, acts))
  }

  function Reached(m: C.Mgr, g: nat): C.Mgr {
    C.Disarm(m, g, g < |m.timers.alive| && m.timers.alive[g])
  }

  function LambdaActs(m: C.Mgr, g: nat, acts: seq<C.Act>): seq<C.Act> {
    if g < |m.timers.alive| && m.timers.alive[g] then acts else []
  }

  /** The scheduler alone decides whether the timer expires. */
  function ExpireTimer(j: Joint, g: nat, acts: seq<C.Act>): Joint {
    if g >= |j.names| || !CanFire(j.s, j.names[g]) then j
    else
      var x := j.names[g];
      var calls := Calls(Reached(j.m, g), LambdaActs(j.m, g, acts));
      Joint(RunLambda(j.m, g, acts), OnFire(j.s, x, calls), NamesAfter(Expire(j.s, x), j.names, calls))
  }

  function Advance(j: Joint, e: JointEvent): Joint {
    match e
    case Manages(e) =>
      var calls := CallsOf(j.m, e);
      Joint(C.Step(j.m, e), RunActs(j.s, calls), NamesAfter(j.s, j.names, calls))
    case Expires(g, acts) => ExpireTimer(j, g, acts)
    case Schedules(e) => j.(s := Step(j.s, e))
  }

  function RunJoint(j: Joint, es: seq<JointEvent>): Joint
    decreases es
  {
    if es == [] then j else RunJoint(Advance(j, es[0]), es[1..])
  }

  // ---- the premises ----

  /** A call by which others do not stop the scheduler, nor does a callback they post. */
  predicate Stopless(a: Act)
    decreases a, 1
  {
    match a
    case Stop => false
    case Post(cb) => AllStopless(cb.acts)
    case _ => true
  }

  predicate AllStopless(acts: seq<Act>)
    decreases acts, 0
  {
    forall i :: 0 <= i < |acts| ==> Stopless(acts[i])
  }

  ghost predicate QueueStopless(queue: seq<Callback>) {
    forall i :: 0 <= i < |queue| ==> AllStopless(queue[i].acts)
  }

  /** The manager is launched only by its start(), which starts the scheduler; a callback that a timer
      runs does not stop the manager; whoever else uses the scheduler gives jobs proper names and does
      not stop it, and the timers of the manager expire only as its own. */
  ghost predicate Civil(j: Joint, e: JointEvent) {
    match e
    case Manages(e) => !e.Fired? && (e.Launched? && e.good ==> j.s.started)
    case Expires(g, acts) => AllStopless(Calls(Reached(j.m, g), LambdaActs(j.m, g, acts)))
    case Schedules(e) =>
      match e
      case Do(a) => Proper(a) && Stopless(a)
      case Fire(x, acts) => x !in j.names && AllProper(acts) && AllStopless(acts)
      case _ => true
  }

  ghost predicate CivilRun(j: Joint, es: seq<JointEvent>)
    decreases es
  {
    es == [] || (Civil(j, es[0]) && CivilRun(Advance(j, es[0]), es[1..]))
  }

  // ---- calls, one after the other ----

  lemma RunActsSplit(s: Uv, a: seq<Act>, b: seq<Act>)
    ensures RunActs(s, a + b) == RunActs(RunActs(s, a), b)
    decreases a
  {
    if a == [] {
      assert a + b == b;
    } else {
      assert (a + b)[1..] == a[1..] + b;
      RunActsSplit(Perform(s, a[0]), a[1..], b);
    }
  }

  lemma NamesSplit(s: Uv, names: seq<nat>, a: seq<Act>, b: seq<Act>)
    ensures NamesAfter(s, names, a + b) == NamesAfter(RunActs(s, a), NamesAfter(s, names, a), b)
    decreases a
  {
    if a == [] {
      assert a + b == b;
    } else {
      assert (a + b)[1..] == a[1..] + b;
      NamesSplit(Perform(s, a[0]), if a[0].After? then names + [|s.kinds|] else names, a[1..], b);
    }
  }

  lemma RunOne(s: Uv, names: seq<nat>, a: Act)
    ensures RunActs(s, [a]) == Perform(s, a)
    ensures NamesAfter(s, names, [a]) == if a.After? then names + [|s.kinds|] else names
  {
    var none: seq<Act> := [];
    assert [a][1..] == none;
    assert RunActs(Perform(s, a), none) == Perform(s, a);
  }

  /** The names of later contexts are fresh. */
  lemma NamesGrow(s: Uv, names: seq<nat>, calls: seq<Act>)
    ensures names <= NamesAfter(s, names, calls)
    ensures forall g :: |names| <= g < |NamesAfter(s, names, calls)| ==> NamesAfter(s, names, calls)[g] >= |s.kinds|
    decreases calls
  {
    if calls != [] {
      var next := if calls[0].After? then names + [|s.kinds|] else names;
      NamesGrow(Perform(s, calls[0]), next, calls[1..]);
      PerformFields(s, calls[0]);
      hide Perform;
    }
  }

  // ---- a callback on both sides ----

  /** Manager and scheduler agree while one-shot `running` runs its callback, or between callbacks. */
  ghost predicate Linked(m: C.Mgr, s: Uv, names: seq<nat>, running: int) {
    && Matches(m.timers, s, names, running) && During(s, running) && (m.started ==> s.started)
    && running < |s.kinds| && (running >= 0 ==> s.kinds[running])
  }

  lemma EnterTimers(m: C.Mgr, a: C.Act)
    ensures var t, u := m.timers, C.Enter(m, a).timers;
            && (!(a.After? && C.Usable(m.pool, a.ptr)) && !(a.StopManager? && m.started) ==> |u.alive| == |t.alive| && u.armed == t.armed)
            && (a.StopManager? && m.started ==> C.Enter(m, a) == C.OnStop(m))
            && (C.Enter(m, a).started ==> m.started)
  {
    hide C.Issue, C.ClearGuards, C.Reset, C.Usable;
  }

  lemma SameArmed(t: C.Timers, u: C.Timers, s: Uv, names: seq<nat>, running: int)
    requires Matches(t, s, names, running) && |u.alive| == |t.alive| && u.armed == t.armed
    ensures Matches(u, s, names, running)
  {
    hide Listed;
  }

  lemma PerformLinked(m: C.Mgr, s: Uv, a: Act, names: seq<nat>, running: int)
    requires Linked(m, s, names, running) && Proper(a) && !a.Stop?
    ensures Linked(m, Perform(s, a), names, running)
  {
    PerformDuring(s, a, running);
    hide Matches, During, Perform, Listed;
    OtherMatches(m.timers, s, a, names, running);
  }

  /** One call, on both sides. */
  lemma AskLinked(m: C.Mgr, a: C.Act, s: Uv, names: seq<nat>, running: int)
    requires Linked(m, s, names, running)
    ensures Linked(C.Enter(m, a), RunActs(s, Asks(m, a)), NamesAfter(s, names, Asks(m, a)), running)
  {
    EnterTimers(m, a);
    var u := C.Enter(m, a).timers;
    if a.After? && C.Usable(m.pool, a.ptr) {
      DeferLinked(m, a.ptr, s, names, running);
    } else if a.StopManager? && m.started {
      StopLinked(m, s, names, running);
    } else {
      SameArmed(m.timers, u, s, names, running);
      hide C.Enter, Matches, During, Perform;
      if Asks(m, a) != [] {
        RunOne(s, names, Asks(m, a)[0]);
        PerformLinked(m, s, Asks(m, a)[0], names, running);
        SameArmed(m.timers, u, Perform(s, Asks(m, a)[0]), names, running);
      }
    }
  }

  lemma DeferLinked(m: C.Mgr, x: nat, s: Uv, names: seq<nat>, running: int)
    requires Linked(m, s, names, running) && C.Usable(m.pool, x)
    ensures Linked(C.Enter(m, C.After(x)), RunActs(s, [After]), NamesAfter(s, names, [After]), running)
  {
    hide Matches, During, Perform, C.Enter, C.Defer, C.Usable, Listed, RunActs, NamesAfter;
    EnterAfter(m, x);
    RunOne(s, names, After);
    PerformDuring(s, After, running);
    DeferMatches(m, x, s, names, running);
  }

  lemma EnterAfter(m: C.Mgr, x: nat)
    requires C.Usable(m.pool, x)
    ensures x in m.pool.heap && C.Enter(m, C.After(x)) == C.Defer(m, x) && C.Defer(m, x).started == m.started
  {
  }

  lemma StopLinked(m: C.Mgr, s: Uv, names: seq<nat>, running: int)
    requires Linked(m, s, names, running) && m.started
    ensures Linked(C.OnStop(m), RunActs(s, [Stop]), NamesAfter(s, names, [Stop]), running)
  {
    RunOne(s, names, Stop);
    PerformDuring(s, Stop, running);
    assert !C.OnStop(m).started;
    hide Matches, During, Perform, C.OnStop, Listed;
    StopMatches(m, s, names, running);
  }

  /** A whole callback, with the callbacks nested in it, on both sides. */
  lemma CallsLinked(m: C.Mgr, acts: seq<C.Act>, s: Uv, names: seq<nat>, running: int)
    requires Linked(m, s, names, running)
    ensures Linked(C.RunActs(m, acts), RunActs(s, Calls(m, acts)), NamesAfter(s, names, Calls(m, acts)), running)
    decreases acts, 0
  {
    hide Linked;
    if acts != [] {
      var first := CallsOne(m, acts[0]);
      var rest := Calls(C.RunAct(m, acts[0]), acts[1..]);
      CallLinked(m, acts[0], s, names, running);
      CallsLinked(C.RunAct(m, acts[0]), acts[1..], RunActs(s, first), NamesAfter(s, names, first), running);
      RunActsSplit(s, first, rest);
      NamesSplit(s, names, first, rest);
    }
  }

  lemma CallLinked(m: C.Mgr, a: C.Act, s: Uv, names: seq<nat>, running: int)
    requires Linked(m, s, names, running)
    ensures Linked(C.RunAct(m, a), RunActs(s, CallsOne(m, a)), NamesAfter(s, names, CallsOne(m, a)), running)
    decreases a, 1
  {
    hide Linked, C.Enter, Asks;
    var first := Asks(m, a);
    AskLinked(m, a, s, names, running);
    if C.AtOnce(m, a) {
      var rest := Calls(C.Enter(m, a), a.inner);
      CallsLinked(C.Enter(m, a), a.inner, RunActs(s, first), NamesAfter(s, names, first), running);
      RunActsSplit(s, first, rest);
      NamesSplit(s, names, first, rest);
    } else {
      assert first + [] == first;
    }
  }

  /** The calls of the manager are proper, and post nothing that calls the scheduler itself. */
  lemma CallsProper(m: C.Mgr, acts: seq<C.Act>)
    ensures AllProper(Calls(m, acts)) && forall i :: 0 <= i < |Calls(m, acts)| ==> Tame(Calls(m, acts)[i])
    decreases acts, 0
  {
    if acts != [] {
      CallProper(m, acts[0]);
      CallsProper(C.RunAct(m, acts[0]), acts[1..]);
    }
  }

  lemma CallProper(m: C.Mgr, a: C.Act)
    ensures AllProper(CallsOne(m, a)) && forall i :: 0 <= i < |CallsOne(m, a)| ==> Tame(CallsOne(m, a)[i])
    decreases a, 1
  {
    if C.AtOnce(m, a) { CallsProper(C.Enter(m, a), a.inner); }
  }

  predicate Tame(a: Act) {
    a.Post? ==> AllStopless(a.callback.acts)
  }

  // ---- the queue of the scheduler ----

  lemma PerformStopless(s: Uv, a: Act)
    requires QueueStopless(s.queue) && Tame(a)
    ensures QueueStopless(Perform(s, a).queue)
  {
  }

  lemma RunActsStopless(s: Uv, acts: seq<Act>)
    requires QueueStopless(s.queue) && forall i :: 0 <= i < |acts| ==> Tame(acts[i])
    ensures QueueStopless(RunActs(s, acts).queue)
    decreases acts
  {
    if acts != [] {
      PerformStopless(s, acts[0]);
      hide Perform;
      RunActsStopless(Perform(s, acts[0]), acts[1..]);
    }
  }

  lemma StoplessTame(acts: seq<Act>)
    requires AllStopless(acts)
    ensures forall i :: 0 <= i < |acts| ==> Tame(acts[i])
  {
    forall i | 0 <= i < |acts| ensures Tame(acts[i]) {
      assert Stopless(acts[i]);
    }
  }

  lemma StoplessRuns(started: bool, acts: seq<Act>)
    requires AllStopless(acts)
    ensures !StopsScheduler(started, acts)
    decreases acts
  {
    if acts != [] {
      assert Stopless(acts[0]);
      StoplessRuns(acts[0].Start? || (started && !acts[0].Stop?), acts[1..]);
    }
  }

  // ---- what others do with the scheduler ----

  /** Calls that stop nothing leave manager and scheduler linked. */
  lemma OthersLinked(m: C.Mgr, s: Uv, acts: seq<Act>, names: seq<nat>, running: int)
    requires Linked(m, s, names, running) && AllProper(acts) && AllStopless(acts)
    ensures Linked(m, RunActs(s, acts), names, running)
    decreases acts
  {
    if acts != [] {
      assert Stopless(acts[0]);
      PerformLinked(m, s, acts[0], names, running);
      hide Linked, Perform;
      OthersLinked(m, Perform(s, acts[0]), acts[1..], names, running);
    }
  }

  /** A timer of somebody else expires. */
  lemma OtherFires(m: C.Mgr, s: Uv, x: nat, acts: seq<Act>, names: seq<nat>)
    requires Linked(m, s, names, -1) && CanFire(s, x) && x !in names && AllProper(acts) && AllStopless(acts)
    ensures Linked(m, OnFire(s, x, acts), names, -1)
  {
    var s1 := Expire(s, x);
    var running := if s.ctxs[x].oneShot then x else -1;
    OtherExpires(m.timers, s, names, x);
    ExpireDuring(s, x);
    assert s1.kinds == s.kinds && s1.started == s.started;
    hide Matches, During, Listed, Expire, RunActs, FinishOneShot;
    assert Linked(m, s1, names, running);
    OthersLinked(m, s1, acts, names, running);
    if s.ctxs[x].oneShot {
      RunActsDuring(s1, acts, x);
      StoplessRuns(s1.started, acts);
      var t := RunActs(s1, acts);
      OtherFinishes(m.timers, t, names, x);
      FinishOk(t, x);
      FinishFields(t, x);
      FinishStarted(t, x);
    }
  }

  lemma FinishStarted(s: Uv, x: nat)
    ensures FinishOneShot(s, x).started == s.started
  {
  }

  /** A batch of callbacks posted by whomever runs. */
  lemma BatchLinked(m: C.Mgr, s: Uv, batch: seq<Callback>, names: seq<nat>)
    requires Linked(m, s, names, -1) && QueueOk(batch) && QueueStopless(batch)
    ensures Linked(m, RunBatch(s, batch), names, -1)
    decreases batch
  {
    if batch != [] {
      var s1 := s.(executed := s.executed + [batch[0].id]);
      assert AllProper(batch[0].acts) && AllStopless(batch[0].acts);
      assert QueueOk(batch[1..]) && QueueStopless(batch[1..]);
      SwapLinked(m, s, s1, names);
      hide Linked, RunActs, QueueOk, QueueStopless;
      OthersLinked(m, s1, batch[0].acts, names, -1);
      BatchLinked(m, RunActs(s1, batch[0].acts), batch[1..], names);
    }
  }

  lemma SwapLinked(m: C.Mgr, s: Uv, t: Uv, names: seq<nat>)
    requires Linked(m, s, names, -1) && s.counter <= t.counter
    requires t == s.(queue := t.queue, signal := t.signal, executed := t.executed, counter := t.counter)
    ensures Linked(m, t, names, -1)
  {
    SameTimers(s, t, -1);
    hide During, Listed, Matches;
    SameOneShots(m.timers, s, t, names, -1);
  }

  lemma ClosedLinked(m: C.Mgr, s: Uv, x: nat, names: seq<nat>)
    requires Linked(m, s, names, -1) && Good(s)
    ensures Linked(m, OnClosed(s, x), names, -1)
  {
    ClosedMatches(m.timers, s, names, x);
    if x in s.closing { ClosedGood(s, x); }
    assert OnClosed(s, x).started == s.started && OnClosed(s, x).kinds == s.kinds;
    hide During, Matches, OnClosed, QueueOk, Fades;
  }

  lemma SchedulesLinked(m: C.Mgr, s: Uv, e: Event, names: seq<nat>)
    requires Linked(m, s, names, -1) && Good(s) && QueueStopless(s.queue)
    requires Civil(Joint(m, s, names), Schedules(e))
    ensures Linked(m, Step(s, e), names, -1)
  {
    hide Linked, Perform;
    match e
    case Do(a) => PerformLinked(m, s, a, names, -1);
    case Fire(x, acts) =>
      if CanFire(s, x) { OtherFires(m, s, x, acts, names); }
    case Closed(x) => ClosedLinked(m, s, x, names);
    case Wake =>
      if s.signal {
        var s1 := s.(signal := false, queue := []);
        SwapLinked(m, s, s1, names);
        BatchLinked(m, s1, s.queue, names);
      }
    case Elsewhere => SwapLinked(m, s, Step(s, e), names);
  }

  lemma SchedulesStopless(s: Uv, e: Event)
    requires QueueStopless(s.queue)
    requires e.Do? ==> Stopless(e.act)
    requires e.Fire? ==> AllStopless(e.acts)
    ensures QueueStopless(Step(s, e).queue)
  {
    hide Perform, RunActs, Expire, FinishOneShot;
    match e
    case Do(a) => PerformStopless(s, a);
    case Fire(x, acts) =>
      if CanFire(s, x) {
        StoplessTame(acts);
        assert Expire(s, x).queue == s.queue by { ExpireQueue(s, x); }
        RunActsStopless(Expire(s, x), acts);
        FinishFields(RunActs(Expire(s, x), acts), x);
      }
    case Wake =>
      if s.signal { BatchStopless(s.(signal := false, queue := []), s.queue); }
    case _ =>
  }

  lemma ExpireQueue(s: Uv, x: nat)
    requires x in s.ctxs
    ensures Expire(s, x).queue == s.queue && Expire(s, x).started == s.started && Expire(s, x).kinds == s.kinds
    ensures Expire(s, x).fired == s.fired + multiset{x}
  {
  }

  lemma BatchStopless(s: Uv, batch: seq<Callback>)
    requires QueueStopless(s.queue) && QueueStopless(batch)
    ensures QueueStopless(RunBatch(s, batch).queue)
    decreases batch
  {
    if batch != [] {
      var s1 := s.(executed := s.executed + [batch[0].id]);
      StoplessTame(batch[0].acts);
      RunActsStopless(s1, batch[0].acts);
      assert QueueStopless(batch[1..]);
      hide RunActs, QueueStopless;
      BatchStopless(RunActs(s1, batch[0].acts), batch[1..]);
    }
  }

  // ---- every step of the joint machine ----

  /** Each callback ran at most as often as its timer expired. */
  ghost predicate Counted(m: C.Mgr, s: Uv, names: seq<nat>) {
    forall g :: 0 <= g < |names| ==> m.timers.ran[g] <= s.fired[names[g]]
  }

  ghost predicate JointOk(j: Joint) {
    && I.Inv(j.m) && Good(j.s) && QueueStopless(j.s.queue)
    && Linked(j.m, j.s, j.names, -1) && Counted(j.m, j.s, j.names)
  }

  /** What the manager does by itself, on both sides. */
  lemma BeforeLinked(m: C.Mgr, e: C.Event, s: Uv, names: seq<nat>)
    requires Linked(m, s, names, -1) && Civil(Joint(m, s, names), Manages(e))
    ensures Linked(T.Before(m, e), RunActs(s, OwnCalls(m, e)), NamesAfter(s, names, OwnCalls(m, e)), -1)
  {
    BeforeTimers(m, e);
    if e.Stop? && m.started {
      assert T.Before(m, e) == C.OnStop(m);
      StopLinked(m, s, names, -1);
    } else {
      hide T.Before, Matches, During, Perform;
      SameArmed(m.timers, T.Before(m, e).timers, s, names, -1);
      if OwnCalls(m, e) != [] {
        RunOne(s, names, Start);
        PerformLinked(m, s, Start, names, -1);
        SameArmed(m.timers, T.Before(m, e).timers, Perform(s, Start), names, -1);
      }
    }
  }

  lemma BeforeTimers(m: C.Mgr, e: C.Event)
    requires !e.Fired?
    ensures var b := T.Before(m, e);
            && (!(e.Stop? && m.started) ==> |b.timers.alive| == |m.timers.alive| && b.timers.armed == m.timers.armed)
            && (b.started ==> m.started || (e.Launched? && e.good))
  {
    hide C.Issue, C.React, C.Check, C.Open, C.Reset, C.ClearGuards;
    match e
    case Reply(id, ok, data, dt, acts) =>
      if id in m.mux.pending { ReactTimers(C.Answer(C.Tick(m, dt, true), id, ok), m.mux.pending[id], ok, data); }
    case Checked(w, dt, acts) => T.CheckLeaves(C.Unpost(C.Tick(m, dt, false), w), w);
    case _ =>
  }

  lemma ReactTimers(m: C.Mgr, h: C.Handler, ok: bool, data: C.Payload)
    ensures var t := C.React(m, h, ok, data);
            |t.timers.alive| == |m.timers.alive| && t.timers.armed == m.timers.armed && t.started == m.started
  {
    hide C.Issue, C.Check, C.ClearGuards;
    if h.Poll? { T.CheckLeaves(m, h.wait); }
  }

  lemma ManagesLinked(m: C.Mgr, e: C.Event, s: Uv, names: seq<nat>)
    requires Linked(m, s, names, -1) && Civil(Joint(m, s, names), Manages(e))
    ensures Linked(C.Step(m, e), RunActs(s, CallsOf(m, e)), NamesAfter(s, names, CallsOf(m, e)), -1)
  {
    var b, acts := T.Before(m, e), T.Callback(m, e);
    var rest := Calls(b, acts);
    var own := OwnCalls(m, e);
    BeforeLinked(m, e, s, names);
    T.StepSplits(m, e);
    hide Linked, T.Before, T.Callback, Calls, OwnCalls, C.Step, RunActs, NamesAfter;
    CallsLinked(b, acts, RunActs(s, own), NamesAfter(s, names, own), -1);
    RunActsSplit(s, own, rest);
    NamesSplit(s, names, own, rest);
    var t := C.RunActs(b, acts);
    if e.Reply? { EraseLinked(t, e.id, RunActs(s, own + rest), NamesAfter(s, names, own + rest)); }
  }

  lemma EraseLinked(m: C.Mgr, id: int, s: Uv, names: seq<nat>)
    requires Linked(m, s, names, -1)
    ensures Linked(C.Erase(m, id), s, names, -1)
  {
    hide Matches, During;
  }

  lemma CallsOfProper(m: C.Mgr, e: C.Event)
    ensures AllProper(CallsOf(m, e)) && forall i :: 0 <= i < |CallsOf(m, e)| ==> Tame(CallsOf(m, e)[i])
  {
    hide Calls, T.Before, T.Callback;
    CallsProper(T.Before(m, e), T.Callback(m, e));
  }

  lemma RunActsFired(s: Uv, acts: seq<Act>)
    ensures RunActs(s, acts).fired == s.fired
    decreases acts
  {
    if acts != [] {
      PerformFields(s, acts[0]);
      hide Perform;
      RunActsFired(Perform(s, acts[0]), acts[1..]);
    }
  }

  /** No event but a timer's makes a deferred callback run. */
  lemma ManagesCounted(m: C.Mgr, e: C.Event, s: Uv, names: seq<nat>, calls: seq<Act>)
    requires I.Inv(m) && !e.Fired? && Counted(m, s, names) && |names| == |m.timers.alive|
    ensures Counted(C.Step(m, e), RunActs(s, calls), NamesAfter(s, names, calls))
  {
    RunActsFired(s, calls);
    NamesGrow(s, names, calls);
    Unborn(m);
    hide I.Inv, C.Step, RunActs, NamesAfter;
    forall g: nat ensures C.Step(m, e).timers.ran[g] == m.timers.ran[g] { D.StepAges(m, e, g); }
  }

  lemma Unborn(m: C.Mgr)
    requires I.Inv(m)
    ensures forall g: nat :: g >= |m.timers.alive| ==> m.timers.ran[g] == 0
  {
  }

  lemma ManagesOk(j: Joint, e: C.Event)
    requires JointOk(j) && Civil(j, Manages(e))
    ensures JointOk(Advance(j, Manages(e)))
  {
    var calls := CallsOf(j.m, e);
    assert |j.names| == |j.m.timers.alive|;
    ManagesLinked(j.m, e, j.s, j.names);
    R.StepInv(j.m, e);
    CallsOfProper(j.m, e);
    hide I.Inv, Matches, During, C.Step, CallsOf, RunActs, NamesAfter, Counted, AllProper, QueueOk, QueueStopless;
    RunActsQueue(j.s, calls);
    RunActsStopless(j.s, calls);
    ManagesCounted(j.m, e, j.s, j.names, calls);
  }

  // ---- a timer of the manager expires ----

  /** When the scheduler fires the timer, its lambda does what the manager's model says of an armed
      callback: the set that model keeps is not needed to tell. */
  lemma LambdaIsFired(j: Joint, g: nat, acts: seq<C.Act>)
    requires JointOk(j) && g < |j.names| && CanFire(j.s, j.names[g])
    ensures g in j.m.timers.armed && RunLambda(j.m, g, acts) == C.Step(j.m, C.Fired(g, acts))
  {
    hide I.Inv, During, Matches, Counted, QueueOk, QueueStopless, CanFire, C.RunActs;
    FiresIffArmed(j.m.timers, j.s, j.names, g);
  }

  lemma ExpiresLinked(j: Joint, g: nat, acts: seq<C.Act>)
    requires JointOk(j) && g < |j.names| && CanFire(j.s, j.names[g]) && Civil(j, Expires(g, acts))
    ensures var k := Advance(j, Expires(g, acts));
            Linked(k.m, k.s, k.names, -1) && Good(k.s) && QueueStopless(k.s.queue)
  {
    var x := j.names[g];
    var m1, us := Reached(j.m, g), LambdaActs(j.m, g, acts);
    var calls := Calls(m1, us);
    var s1 := Expire(j.s, x);
    var t := RunActs(s1, calls);
    LambdaIsFired(j, g, acts);
    ExpireMatches(j.m, j.s, j.names, g, g < |j.m.timers.alive| && j.m.timers.alive[g]);
    ExpireDuring(j.s, x);
    ExpireQueue(j.s, x);
    CallsProper(m1, us);
    StoplessRuns(j.s.started, calls);
    FireGood(j.s, x, calls);
    assert x < |s1.kinds| && s1.kinds[x];
    hide I.Inv, Matches, During, Listed, Calls, C.RunActs, RunActs, NamesAfter, Expire, FinishOneShot, QueueOk,
         QueueStopless, AllProper, AllStopless, Counted, Fades, StopsScheduler;
    assert Linked(m1, s1, j.names, x);
    CallsLinked(m1, us, s1, j.names, x);
    RunActsDuring(s1, calls, x);
    RunActsStopless(s1, calls);
    FinishedLinked(C.RunActs(m1, us), t, NamesAfter(s1, j.names, calls), x);
  }

  lemma FinishedLinked(m: C.Mgr, s: Uv, names: seq<nat>, x: nat)
    requires Linked(m, s, names, x) && Listed(s, x)
    ensures Linked(m, FinishOneShot(s, x), names, -1) && FinishOneShot(s, x).queue == s.queue
  {
    FinishMatches(m.timers, s, names, x);
    FinishOk(s, x);
    FinishFields(s, x);
    FinishStarted(s, x);
    hide Matches, During, FinishOneShot, Listed;
  }

  lemma ExpiresCounted(j: Joint, g: nat, acts: seq<C.Act>)
    requires JointOk(j) && g < |j.names| && CanFire(j.s, j.names[g])
    ensures var k := Advance(j, Expires(g, acts)); Counted(k.m, k.s, k.names)
  {
    hide JointOk, Calls, CanFire, C.RunActs, RunActs, NamesAfter, Expire, OnFire, Reached, LambdaActs, RunLambda, Counted;
    var x := j.names[g];
    var calls := Calls(Reached(j.m, g), LambdaActs(j.m, g, acts));
    JointFacts(j, x);
    LambdaRan(j, g, acts);
    FireFired(j.s, x, calls);
    NamesGrow(Expire(j.s, x), j.names, calls);
    MoreCounted(j.m, RunLambda(j.m, g, acts), j.s, OnFire(j.s, x, calls), j.names,
                NamesAfter(Expire(j.s, x), j.names, calls), g);
  }

  lemma LambdaRan(j: Joint, g: nat, acts: seq<C.Act>)
    requires JointOk(j) && g < |j.names| && CanFire(j.s, j.names[g])
    ensures var ran := RunLambda(j.m, g, acts).timers.ran; ran == j.m.timers.ran + multiset{g} || ran == j.m.timers.ran
  {
    hide I.Inv, JointOk, CanFire, C.Step, RunLambda;
    JointFacts(j, j.names[g]);
    LambdaIsFired(j, g, acts);
    D.DeferredRunsIffLive(j.m, g, acts);
  }

  lemma JointFacts(j: Joint, x: nat)
    requires JointOk(j)
    ensures I.Inv(j.m) && Counted(j.m, j.s, j.names) && |j.names| == |j.m.timers.alive|
    ensures CanFire(j.s, x) ==> x in j.s.ctxs
    ensures forall h: nat :: h >= |j.m.timers.alive| ==> j.m.timers.ran[h] == 0
  {
    hide I.Inv, During, Listed, Counted;
    Unborn(j.m);
  }

  lemma FireFired(s: Uv, x: nat, acts: seq<Act>)
    requires CanFire(s, x)
    ensures OnFire(s, x, acts).fired == s.fired + multiset{x}
  {
    ExpireQueue(s, x);
    RunActsFired(Expire(s, x), acts);
    FinishFields(RunActs(Expire(s, x), acts), x);
    hide Expire, RunActs, FinishOneShot;
  }

  lemma MoreCounted(m: C.Mgr, n: C.Mgr, s: Uv, t: Uv, names: seq<nat>, more: seq<nat>, g: nat)
    requires Counted(m, s, names) && g < |names| && names <= more && |names| == |m.timers.alive|
    requires t.fired == s.fired + multiset{names[g]}
    requires n.timers.ran == m.timers.ran + multiset{g} || n.timers.ran == m.timers.ran
    requires forall h: nat :: h >= |m.timers.alive| ==> m.timers.ran[h] == 0
    ensures Counted(n, t, more)
  {
  }

  lemma ExpiresOk(j: Joint, g: nat, acts: seq<C.Act>)
    requires JointOk(j) && Civil(j, Expires(g, acts))
    ensures JointOk(Advance(j, Expires(g, acts)))
  {
    if g < |j.names| && CanFire(j.s, j.names[g]) {
      ExpiresLinked(j, g, acts);
      ExpiresCounted(j, g, acts);
      LambdaIsFired(j, g, acts);
      R.StepInv(j.m, C.Fired(g, acts));
      hide I.Inv, Good, Linked, Counted, QueueStopless, RunLambda, OnFire, C.Step, NamesAfter;
    }
  }

  lemma StepFired(s: Uv, e: Event)
    ensures forall x: nat :: s.fired[x] <= Step(s, e).fired[x]
  {
    hide Perform, RunActs, Expire, FinishOneShot;
    match e
    case Do(a) => PerformFields(s, a);
    case Fire(x, acts) =>
      if CanFire(s, x) {
        ExpireQueue(s, x);
        RunActsFired(Expire(s, x), acts);
        FinishFields(RunActs(Expire(s, x), acts), x);
      }
    case Wake =>
      if s.signal { BatchFired(s.(signal := false, queue := []), s.queue); }
    case _ =>
  }

  lemma BatchFired(s: Uv, batch: seq<Callback>)
    ensures RunBatch(s, batch).fired == s.fired
    decreases batch
  {
    if batch != [] {
      var s1 := s.(executed := s.executed + [batch[0].id]);
      RunActsFired(s1, batch[0].acts);
      hide RunActs;
      BatchFired(RunActs(s1, batch[0].acts), batch[1..]);
    }
  }

  lemma SchedulesOk(j: Joint, e: Event)
    requires JointOk(j) && Civil(j, Schedules(e))
    ensures JointOk(Advance(j, Schedules(e)))
  {
    if e.Fire? { StoplessRuns(j.s.started, e.acts); }
    hide I.Inv, Linked, Good, Step;
    StepGood(j.s, e);
    SchedulesStopless(j.s, e);
    SchedulesLinked(j.m, j.s, e, j.names);
    StepFired(j.s, e);
  }

  lemma AdvanceOk(j: Joint, e: JointEvent)
    requires JointOk(j) && Civil(j, e)
    ensures JointOk(Advance(j, e))
  {
    hide JointOk, Civil, Advance;
    match e
    case Manages(e) => ManagesOk(j, e);
    case Expires(g, acts) => ExpiresOk(j, g, acts);
    case Schedules(e) => SchedulesOk(j, e);
  }

  lemma RunJointOk(j: Joint, es: seq<JointEvent>)
    requires JointOk(j) && CivilRun(j, es)
    ensures JointOk(RunJoint(j, es))
    decreases es
  {
    if es != [] {
      AdvanceOk(j, es[0]);
      hide JointOk, Advance, Civil;
      RunJointOk(Advance(j, es[0]), es[1..]);
    }
  }

  lemma InitJointOk()
    ensures JointOk(InitJoint())
  {
    R.InitInv();
    InitGood();
    InitMatches();
    hide I.Inv, Good;
  }

  // ---- the results ----

  /** Over every joint run the callbacks that the manager's model calls armed are exactly those whose
      timer the scheduler can fire. */
  lemma ArmedExactly(es: seq<JointEvent>, g: nat)
    requires CivilRun(InitJoint(), es)
    ensures var j := RunJoint(InitJoint(), es);
            g in j.m.timers.armed <==> g < |j.names| && CanFire(j.s, j.names[g])
  {
    hide JointOk, RunJoint, CivilRun, CanFire;
    InitJointOk();
    RunJointOk(InitJoint(), es);
    FiresArmed(RunJoint(InitJoint(), es), g);
  }

  lemma FiresArmed(j: Joint, g: nat)
    requires JointOk(j)
    ensures g in j.m.timers.armed <==> g < |j.names| && CanFire(j.s, j.names[g])
  {
    hide I.Inv, During, Counted, QueueOk, QueueStopless, CanFire, Listed;
    if g < |j.names| { FiresIffArmed(j.m.timers, j.s, j.names, g); }
  }

  /** Over every joint run a deferred callback runs at most as often as the scheduler fires its timer,
      which is at most once. */
  lemma RunsAtMostOnce(es: seq<JointEvent>, g: nat)
    requires CivilRun(InitJoint(), es)
    ensures var j := RunJoint(InitJoint(), es);
            if g < |j.names| then j.m.timers.ran[g] <= j.s.fired[j.names[g]] <= 1 else j.m.timers.ran[g] == 0
  {
    hide JointOk, RunJoint, CivilRun;
    InitJointOk();
    RunJointOk(InitJoint(), es);
    CountedOnce(RunJoint(InitJoint(), es), g);
  }

  lemma CountedOnce(j: Joint, g: nat)
    requires JointOk(j)
    ensures if g < |j.names| then j.m.timers.ran[g] <= j.s.fired[j.names[g]] <= 1 else j.m.timers.ran[g] == 0
  {
    hide I.Inv, PlacesOk, ClosesOk, NamesOk, NumbersOk, QueueOk, QueueStopless, Listed;
    Unborn(j.m);
  }

  /** When the scheduler fires the timer, the callback runs if and only if its context is live. */
  lemma FiringRunsIffLive(j: Joint, g: nat, acts: seq<C.Act>)
    requires JointOk(j) && g < |j.names| && CanFire(j.s, j.names[g])
    ensures g < |j.m.timers.owner|
    ensures Advance(j, Expires(g, acts)).m.timers.ran
         == j.m.timers.ran + if j.m.timers.owner[g] in j.m.pool.heap then multiset{g} else multiset{}
  {
    hide I.Inv, JointOk, CanFire, RunLambda, C.Step, OnFire, NamesAfter, Calls;
    JointFacts(j, j.names[g]);
    LambdaIsFired(j, g, acts);
    D.DeferredRunsIffLive(j.m, g, acts);
    Born(j.m, g);
  }

  lemma Born(m: C.Mgr, g: nat)
    requires I.Inv(m) && g in m.timers.armed
    ensures g < |m.timers.owner|
  {
  }

  /** The manager's events of a joint run, timers included. */
  function Handled(j: Joint, es: seq<JointEvent>): seq<C.Event>
    decreases es
  {
    if es == [] then [] else HandledOne(j, es[0]) + Handled(Advance(j, es[0]), es[1..])
  }

  function HandledOne(j: Joint, e: JointEvent): seq<C.Event> {
    match e
    case Manages(e) => [e]
    case Expires(g, acts) => if g < |j.names| && CanFire(j.s, j.names[g]) then [C.Fired(g, acts)] else []
    case Schedules(_) => []
  }

  /** A joint run is a run of the manager's model, so everything proved of that holds in it. */
  lemma ManagerRuns(j: Joint, es: seq<JointEvent>)
    requires JointOk(j) && CivilRun(j, es)
    ensures RunJoint(j, es).m == C.Run(j.m, Handled(j, es))
    decreases es
  {
    if es != [] {
      var e := es[0];
      var k := Advance(j, e);
      AdvanceOk(j, e);
      OneHandled(j, e);
      hide JointOk, Civil, C.Step, Advance, HandledOne;
      ManagerRuns(k, es[1..]);
      var one, rest := HandledOne(j, e), Handled(k, es[1..]);
      if one == [] {
        assert one + rest == rest;
      } else {
        assert (one + rest)[0] == one[0] && (one + rest)[1..] == rest;
      }
    }
  }

  lemma OneHandled(j: Joint, e: JointEvent)
    requires JointOk(j)
    ensures var one := HandledOne(j, e);
            if one == [] then Advance(j, e).m == j.m else |one| == 1 && Advance(j, e).m == C.Step(j.m, one[0])
  {
    hide JointOk, C.Step, RunLambda, OnFire, CanFire, RunActs, NamesAfter, CallsOf, Calls;
    if e.Expires? && e.guard < |j.names| && CanFire(j.s, j.names[e.guard]) { LambdaIsFired(j, e.guard, e.acts); }
  }

  /** Once its context is freed, whichever way, a deferred callback never runs in any further joint run. */
  lemma NeverOnceFreed(j: Joint, es: seq<JointEvent>, g: nat)
    requires JointOk(j) && CivilRun(j, es)
    requires g < |j.m.timers.owner| && j.m.timers.owner[g] !in j.m.pool.heap
    ensures RunJoint(j, es).m.timers.ran[g] == j.m.timers.ran[g]
  {
    ManagerRuns(j, es);
    D.FreedNeverRuns(j.m, Handled(j, es), g);
  }
}
