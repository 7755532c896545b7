/** The main results about the timers of the scheduler, over every run. */
module UvTheorems {
  import opened UvModel
  import opened UvInvariants

  /** The premise on callers, for one event: names are proper, and the callback of a one-shot does
      not stop its own scheduler. */
  ghost predicate Polite(s: Uv, e: Event) {
    match e
    case Do(a) => Proper(a)
    case Fire(x, acts) => AllProper(acts) && (CanFire(s, x) && s.ctxs[x].oneShot ==> !StopsScheduler(s.started, acts))
    case _ => true
  }

  ghost predicate PoliteRun(s: Uv, es: seq<Event>)
    decreases es
  {
    es == [] || (Polite(s, es[0]) && PoliteRun(Step(s, es[0]), es[1..]))
  }

  ghost predicate Good(s: Uv) {
    Ok(s) && QueueOk(s.queue)
  }

  /** What a step leaves of the contexts that existed before: none is registered again, and only a
      registered one fires. */
  ghost predicate Fades(s: Uv, t: Uv) {
    && s.kinds <= t.kinds
    && (forall y: nat :: y < |s.kinds| && Listed(t, y) ==> Listed(s, y))
    && (forall y: nat :: y < |s.kinds| && !Listed(s, y) ==> t.fired[y] == s.fired[y])
  }

  // ---- a timer expires ----

  lemma ExpirePlaces(s: Uv, x: nat)
    requires PlacesOk(s) && ClosesOk(s) && x in s.ctxs
    ensures PlacesOk(Expire(s, x)) && ClosesOk(Expire(s, x))
    ensures forall y: nat :: Listed(Expire(s, x), y) <==> Listed(s, y)
  {
    forall y: nat ensures Listed(Expire(s, x), y) <==> Listed(s, y) {}
  }

  lemma ExpireNames(s: Uv, x: nat)
    requires NamesOk(s) && NumbersOk(s) && x in s.ctxs && Listed(s, x)
    requires forall y: nat :: Listed(Expire(s, x), y) <==> Listed(s, y)
    ensures NamesOk(Expire(s, x)) && NumbersOk(Expire(s, x))
  {
    hide Listed;
  }

  lemma ExpireFires(s: Uv, x: nat, running: int)
    requires NamesOk(s) && FiresOk(s, -1) && x in s.ctxs && Listed(s, x)
    requires running == if s.ctxs[x].oneShot then x else -1
    requires forall y: nat :: Listed(Expire(s, x), y) <==> Listed(s, y)
    ensures FiresOk(Expire(s, x), running)
  {
    hide Listed;
  }

  lemma ExpireDuring(s: Uv, x: nat)
    requires Ok(s) && CanFire(s, x)
    ensures Listed(s, x) && x < |s.kinds| && s.freed[x] == 0 && s.ctxs[x].oneShot == s.kinds[x]
    ensures During(Expire(s, x), if s.ctxs[x].oneShot then x else -1)
    ensures forall y: nat :: Listed(Expire(s, x), y) <==> Listed(s, y)
  {
    assert Listed(s, x) && x < |s.kinds| && s.freed[x] == 0 && s.ctxs[x].oneShot == s.kinds[x];
    hide PlacesOk, ClosesOk, NamesOk, NumbersOk, FiresOk, Listed;
    ExpirePlaces(s, x);
    ExpireNames(s, x);
    ExpireFires(s, x, if s.ctxs[x].oneShot then x else -1);
  }

  lemma FinishPlaces(s: Uv, x: nat)
    requires PlacesOk(s) && ClosesOk(s) && NamesOk(s) && Listed(s, x)
    ensures PlacesOk(FinishOneShot(s, x)) && ClosesOk(FinishOneShot(s, x))
    ensures forall y: nat :: Listed(FinishOneShot(s, x), y) <==> Listed(s, y) && y != x
  {
    forall y: nat ensures Listed(FinishOneShot(s, x), y) <==> Listed(s, y) && y != x {}
  }

  lemma FinishNames(s: Uv, x: nat)
    requires NamesOk(s) && Listed(s, x)
    requires forall y: nat :: Listed(FinishOneShot(s, x), y) <==> Listed(s, y) && y != x
    ensures NamesOk(FinishOneShot(s, x))
  {
    assert s.ctxs[x].owned && s.timers[s.ctxs[x].name] == x;
    hide Listed, NumbersOk;
  }

  lemma FinishNumbers(s: Uv, x: nat)
    requires NumbersOk(s)
    ensures NumbersOk(FinishOneShot(s, x))
  {
  }

  lemma FinishFires(s: Uv, x: nat)
    requires FiresOk(s, x) && x in s.ctxs
    requires forall y: nat :: Listed(FinishOneShot(s, x), y) <==> Listed(s, y) && y != x
    ensures FiresOk(FinishOneShot(s, x), -1)
  {
    hide Listed;
  }

  /** A registered one-shot that finishes moves from timers_ to the closing list. */
  lemma FinishOk(s: Uv, x: nat)
    requires During(s, x) && Listed(s, x)
    ensures Ok(FinishOneShot(s, x))
    ensures forall y: nat :: Listed(FinishOneShot(s, x), y) <==> Listed(s, y) && y != x
  {
    assert x in s.ctxs;
    hide PlacesOk, ClosesOk, NamesOk, NumbersOk, FiresOk, Listed;
    FinishPlaces(s, x);
    FinishNames(s, x);
    FinishNumbers(s, x);
    FinishFires(s, x);
  }

  lemma RunActsFades(s: Uv, acts: seq<Act>, running: int)
    requires During(s, running) && AllProper(acts) && running < |s.kinds| && (running >= 0 ==> s.kinds[running])
    ensures Fades(s, RunActs(s, acts))
  {
    RunActsDuring(s, acts, running);
  }

  lemma FadesTrans(s: Uv, t: Uv, u: Uv)
    requires Fades(s, t) && Fades(t, u)
    ensures Fades(s, u)
  {
  }

  lemma ExpireFades(s: Uv, x: nat)
    requires x in s.ctxs && Listed(s, x) && forall y: nat :: Listed(Expire(s, x), y) <==> Listed(s, y)
    ensures Fades(s, Expire(s, x))
  {
  }

  lemma FireGood(s: Uv, x: nat, acts: seq<Act>)
    requires Good(s) && Polite(s, Fire(x, acts)) && CanFire(s, x)
    ensures Good(OnFire(s, x, acts)) && Fades(s, OnFire(s, x, acts))
  {
    var s1 := Expire(s, x);
    var t := RunActs(s1, acts);
    var running := if s.ctxs[x].oneShot then x else -1;
    ExpireDuring(s, x);
    ExpireFades(s, x);
    hide During, Listed, FinishOneShot, QueueOk, AllProper, Fades;
    RunActsDuring(s1, acts, running);
    RunActsFades(s1, acts, running);
    RunActsQueue(s1, acts);
    FadesTrans(s, s1, t);
    if s.ctxs[x].oneShot {
      FinishOk(t, x);
      FinishFields(t, x);
      FinishFades(t, x);
      FadesTrans(s, t, FinishOneShot(t, x));
    }
  }

  lemma FinishFades(s: Uv, x: nat)
    requires forall y: nat :: Listed(FinishOneShot(s, x), y) <==> Listed(s, y) && y != x
    ensures Fades(s, FinishOneShot(s, x))
  {
    hide Listed;
  }

  lemma FinishFields(s: Uv, x: nat)
    ensures var t := FinishOneShot(s, x);
            t.kinds == s.kinds && t.fired == s.fired && t.queue == s.queue
  {
  }

  lemma ClosedUnlisted(s: Uv, x: nat)
    requires PlacesOk(s) && x in s.closing
    ensures !Listed(s, x) && s.closing[x] == 1 && s.freed[x] == 0 && x < |s.kinds|
  {
  }

  lemma ClosedListed(s: Uv, x: nat)
    requires !Listed(s, x)
    ensures forall y: nat :: Listed(OnClosed(s, x), y) <==> Listed(s, y)
  {
  }

  lemma ClosedPlaces(s: Uv, x: nat)
    requires PlacesOk(s) && ClosesOk(s) && x in s.closing
    ensures PlacesOk(OnClosed(s, x)) && ClosesOk(OnClosed(s, x)) && !Listed(s, x)
    ensures forall y: nat :: Listed(OnClosed(s, x), y) <==> Listed(s, y)
  {
    ClosedUnlisted(s, x);
    ClosedListed(s, x);
    hide Listed;
  }

  lemma ClosedNames(s: Uv, x: nat)
    requires NamesOk(s) && NumbersOk(s) && !Listed(s, x)
    ensures NamesOk(OnClosed(s, x)) && NumbersOk(OnClosed(s, x))
  {
    forall y: nat ensures Listed(OnClosed(s, x), y) <==> Listed(s, y) {}
  }

  lemma ClosedGood(s: Uv, x: nat)
    requires Good(s) && x in s.closing
    ensures Good(OnClosed(s, x)) && Fades(s, OnClosed(s, x))
  {
    hide PlacesOk, ClosesOk, NamesOk, NumbersOk, FiresOk, Listed;
    ClosedPlaces(s, x);
    ClosedNames(s, x);
    ClosedFires(s, x);
  }

  lemma ClosedFires(s: Uv, x: nat)
    requires FiresOk(s, -1) && x in s.closing
    requires forall y: nat :: Listed(OnClosed(s, x), y) <==> Listed(s, y)
    ensures FiresOk(OnClosed(s, x), -1)
  {
    forall y: nat | Listed(s, y) ensures y in OnClosed(s, x).ctxs && y in s.ctxs && OnClosed(s, x).ctxs[y] == s.ctxs[y] {
      assert Listed(OnClosed(s, x), y);
    }
    hide Listed;
  }

  lemma BatchGood(s: Uv, batch: seq<Callback>)
    requires Good(s) && QueueOk(batch)
    ensures Good(RunBatch(s, batch)) && Fades(s, RunBatch(s, batch))
    decreases batch
  {
    if batch != [] {
      var s1 := s.(executed := s.executed + [batch[0].id]);
      var t := RunActs(s1, batch[0].acts);
      assert AllProper(batch[0].acts) && QueueOk(batch[1..]);
      hide During, Listed, RunActs, QueueOk, AllProper;
      SameTimers(s, s1, -1);
      assert Fades(s, s1);
      hide Fades;
      RunActsDuring(s1, batch[0].acts, -1);
      RunActsFades(s1, batch[0].acts, -1);
      RunActsQueue(s1, batch[0].acts);
      BatchGood(t, batch[1..]);
      FadesTrans(s, s1, t);
      FadesTrans(s, t, RunBatch(s, batch));
    }
  }

  lemma StepGood(s: Uv, e: Event)
    requires Good(s) && Polite(s, e)
    ensures Good(Step(s, e)) && Fades(s, Step(s, e))
  {
    hide During, Listed;
    match e
    case Do(a) =>
      PerformDuring(s, a, -1);
      PerformQueue(s, a);
    case Fire(x, acts) =>
      if CanFire(s, x) { FireGood(s, x, acts); }
    case Closed(x) =>
      if x in s.closing { ClosedGood(s, x); }
    case Wake =>
      if s.signal {
        var s1 := s.(signal := false, queue := []);
        SameTimers(s, s1, -1);
        BatchGood(s1, s.queue);
      }
    case Elsewhere =>
      SameTimers(s, Step(s, e), -1);
  }

  lemma RunGood(s: Uv, es: seq<Event>)
    requires Good(s) && PoliteRun(s, es)
    ensures Good(Run(s, es)) && Fades(s, Run(s, es))
    decreases es
  {
    if es != [] {
      StepGood(s, es[0]);
      hide Good, Step;
      RunGood(Step(s, es[0]), es[1..]);
    }
  }

  lemma InitGood()
    ensures Good(Init())
  {
  }

  // ---- the results ----

  /** Over every run, each TimerCtx ever allocated is in exactly one place: registered in timers_
      under its own name, closing, or freed; each handle is closed at most once and freed at most
      once; and timers_ holds no pointer to a freed context. */
  lemma TimersOwned(es: seq<Event>, x: nat)
    requires PoliteRun(Init(), es)
    ensures var s := Run(Init(), es);
            && (if Listed(s, x) then 1 else 0) + s.closing[x] + s.freed[x] == (if x < |s.kinds| then 1 else 0)
            && s.closed[x] == s.closing[x] + s.freed[x] <= 1
            && (x in s.ctxs <==> x < |s.kinds| && s.freed[x] == 0)
            && forall name :: name in s.timers ==> s.timers[name] in s.ctxs && s.ctxs[s.timers[name]].name == name
  {
    InitGood();
    RunGood(Init(), es);
  }

  /** A context that is no longer registered never fires again. */
  lemma UnlistedNeverFires(s: Uv, es: seq<Event>, x: nat)
    requires Good(s) && PoliteRun(s, es) && x < |s.kinds| && !Listed(s, x)
    ensures Run(s, es).fired[x] == s.fired[x]
  {
    RunGood(s, es);
  }

  /** A removed job never fires again, and neither does one replaced by a job of the same name. */
  lemma RemovedNeverFires(s: Uv, a: Act, es: seq<Event>)
    requires Good(s) && Proper(a) && (a.RemoveJob? || a.AddJob?) && a.name in s.timers
    requires PoliteRun(Step(s, Do(a)), es)
    ensures Run(Step(s, Do(a)), es).fired[s.timers[a.name]] == s.fired[s.timers[a.name]]
  {
    var x := s.timers[a.name];
    var t := Step(s, Do(a));
    assert Listed(s, x);
    StepGood(s, Do(a));
    PerformDuring(s, a, -1);
    assert !Listed(t, x);
    UnlistedNeverFires(t, es, x);
  }

  /** Nothing registered before stop() of a started scheduler fires afterwards, whatever is
      registered later, restarts included. */
  lemma StopSilencesAll(s: Uv, es: seq<Event>, x: nat)
    requires Good(s) && s.started && x < |s.kinds| && PoliteRun(Step(s, Do(Stop)), es)
    ensures Run(Step(s, Do(Stop)), es).fired[x] == s.fired[x]
  {
    StepGood(s, Do(Stop));
    StopDuring(s, -1);
    PerformDuring(s, Stop, -1);
    UnlistedNeverFires(Step(s, Do(Stop)), es, x);
  }

  lemma OneShotFiresOnce(es: seq<Event>, x: nat)
    requires PoliteRun(Init(), es)
    ensures var s := Run(Init(), es);
            x < |s.kinds| && s.kinds[x] ==> s.fired[x] <= 1
  {
    InitGood();
    RunGood(Init(), es);
  }

  /** The premise is exact: the handle of a one-shot is closed a second time if and only if its
      callback stops the scheduler it belongs to. */
  lemma ClosedTwiceIff(s: Uv, x: nat, acts: seq<Act>)
    requires Good(s) && CanFire(s, x) && s.ctxs[x].oneShot && AllProper(acts)
    ensures OnFire(s, x, acts).closed[x] == if StopsScheduler(s.started, acts) then 2 else 1
  {
    AfterCallback(s, x, acts);
    hide During, RunActs, StopsScheduler, Expire;
    OneClosing(RunActs(Expire(s, x), acts), x);
  }

  lemma AfterCallback(s: Uv, x: nat, acts: seq<Act>)
    requires Ok(s) && CanFire(s, x) && s.ctxs[x].oneShot && AllProper(acts)
    ensures var t := RunActs(Expire(s, x), acts);
            && During(t, x) && x < |t.kinds| && t.freed[x] == 0
            && (Listed(t, x) <==> !StopsScheduler(s.started, acts))
  {
    ExpireDuring(s, x);
    hide During, RunActs, StopsScheduler;
    RunActsDuring(Expire(s, x), acts, x);
  }

  lemma OneClosing(t: Uv, x: nat)
    requires During(t, x) && x < |t.kinds| && t.freed[x] == 0
    ensures x in t.ctxs && t.closed[x] == t.closing[x] == if Listed(t, x) then 0 else 1
  {
    hide NamesOk, NumbersOk, FiresOk, Listed;
  }
}
