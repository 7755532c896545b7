/** Who owns a timer context, and what every step of the scheduler keeps. */
module UvInvariants {
  import opened UvModel

  /** Context x is registered in timers_ under its own name. */
  predicate Listed(s: Uv, x: nat) {
    x in s.ctxs && s.ctxs[x].name in s.timers && s.timers[s.ctxs[x].name] == x
  }

  /** A context is registered, closing or freed, in exactly one of the three ways and once. */
  ghost predicate PlacesOk(s: Uv) {
    && (forall x: nat :: (if Listed(s, x) then 1 else 0) + s.closing[x] + s.freed[x] == if x < |s.kinds| then 1 else 0)
    && (forall x: nat :: x in s.ctxs <==> x < |s.kinds| && s.freed[x] == 0)
  }

  /** Every uv_close is outstanding or was followed by one delete. */
  ghost predicate ClosesOk(s: Uv) {
    forall x: nat :: s.closed[x] == s.closing[x] + s.freed[x]
  }

  ghost predicate NamesOk(s: Uv) {
    && (forall name :: name in s.timers ==> s.timers[name] in s.ctxs && s.ctxs[s.timers[name]].name == name)
    && (forall x: nat :: x in s.ctxs ==> x < |s.kinds| && s.ctxs[x].oneShot == s.kinds[x] && (s.kinds[x] ==> !s.ctxs[x].repeats))
    && (forall x: nat :: x in s.ctxs && s.ctxs[x].armed ==> Listed(s, x))
    && (forall x: nat :: Listed(s, x) ==> s.ctxs[x].owned)
  }

  predicate Reserved(name: string) {
    "_a_" <= name
  }

  /** Numbers above the counter are unused, and one-shots have reserved names. */
  ghost predicate NumbersOk(s: Uv) {
    && (forall n: nat :: n > s.counter ==> OneShotName(n) !in s.timers)
    && (forall x: nat :: x in s.ctxs ==> (s.ctxs[x].oneShot <==> Reserved(s.ctxs[x].name)))
  }

  /** One-shots fire at most once, and a registered one has not fired, except for one whose
      callback is running. */
  ghost predicate FiresOk(s: Uv, running: int) {
    && (forall x: nat :: x >= |s.kinds| ==> s.fired[x] == 0)
    && (forall x: nat :: x < |s.kinds| && s.kinds[x] ==> s.fired[x] <= 1)
    && (forall x: nat :: x < |s.kinds| && Listed(s, x) && s.kinds[x] && x != running ==> s.ctxs[x].armed && s.fired[x] == 0)
    && (forall x: nat :: x == running && x in s.ctxs ==> !s.ctxs[x].armed)
  }

  /** The invariant while the callback of one-shot `running` runs, or between callbacks for -1. */
  ghost predicate During(s: Uv, running: int) {
    PlacesOk(s) && ClosesOk(s) && NamesOk(s) && NumbersOk(s) && FiresOk(s, running)
  }

  ghost predicate Ok(s: Uv) {
    During(s, -1)
  }

  // ---- the premises on callers ----

  /** Job names do not start with the prefix that the scheduler reserves for one-shots. */
  predicate Proper(a: Act)
    decreases a, 1
  {
    match a
    case AddJob(name, _) => !Reserved(name)
    case RemoveJob(name) => !Reserved(name)
    case Post(cb) => AllProper(cb.acts)
    case _ => true
  }

  predicate AllProper(acts: seq<Act>)
    decreases acts, 0
  {
    forall i :: 0 <= i < |acts| ==> Proper(acts[i])
  }

  /** The callbacks waiting in the post queue keep to it as well. */
  ghost predicate QueueOk(queue: seq<Callback>) {
    forall i :: 0 <= i < |queue| ==> AllProper(queue[i].acts)
  }

  /** The calls include a stop() of a scheduler that is started by then. */
  predicate StopsScheduler(started: bool, acts: seq<Act>)
    decreases acts
  {
    && acts != []
    && ((acts[0].Stop? && started) || StopsScheduler(acts[0].Start? || (started && !acts[0].Stop?), acts[1..]))
  }

  // ---- steps ----

  lemma OneShotNames(m: nat, n: nat)
    ensures Reserved(OneShotName(n))
    ensures OneShotName(m) == OneShotName(n) ==> m == n
  {
    var p := "_a_";
    assert OneShotName(n)[..3] == p;
    if OneShotName(m) == OneShotName(n) {
      assert OneShotName(m)[3..] == Decimal.Print(m) && OneShotName(n)[3..] == Decimal.Print(n);
      Decimal.PrintInjective(m, n);
    }
  }

  lemma RemoveCloses(s: Uv, name: string)
    requires ClosesOk(s)
    ensures ClosesOk(Remove(s, name))
  {
  }

  lemma RemovePlaces(s: Uv, name: string)
    requires PlacesOk(s) && NamesOk(s) && name in s.timers
    ensures PlacesOk(Remove(s, name))
    ensures name !in Remove(s, name).timers
    ensures forall y: nat :: Listed(Remove(s, name), y) <==> Listed(s, y) && y != s.timers[name]
  {
    var t := Remove(s, name);
    var x := s.timers[name];
    forall y: nat ensures Listed(t, y) <==> Listed(s, y) && y != x {}
    assert Listed(s, x);
  }

  lemma RemoveNumbers(s: Uv, name: string)
    requires NumbersOk(s)
    ensures NumbersOk(Remove(s, name))
  {
  }

  lemma RemoveNames(s: Uv, name: string)
    requires NamesOk(s) && name in s.timers
    requires forall y: nat :: Listed(Remove(s, name), y) <==> Listed(s, y) && y != s.timers[name]
    ensures NamesOk(Remove(s, name))
  {
    hide Listed;
  }

  lemma RemoveFires(s: Uv, name: string, running: int)
    requires FiresOk(s, running) && name in s.timers
    requires forall y: nat :: Listed(Remove(s, name), y) <==> Listed(s, y) && y != s.timers[name]
    ensures FiresOk(Remove(s, name), running)
  {
    hide Listed;
  }

  lemma RemoveDuring(s: Uv, name: string, running: int)
    requires During(s, running)
    ensures During(Remove(s, name), running) && name !in Remove(s, name).timers
    ensures forall y: nat :: Listed(Remove(s, name), y) <==> Listed(s, y) && !(name in s.timers && s.timers[name] == y)
  {
    hide PlacesOk, ClosesOk, NamesOk, NumbersOk, FiresOk;
    if name in s.timers {
      RemoveCloses(s, name);
      RemovePlaces(s, name);
      RemoveNumbers(s, name);
      RemoveNames(s, name);
      RemoveFires(s, name, running);
    }
  }

  lemma RegisterPlaces(s: Uv, name: string, oneShot: bool, repeats: bool)
    requires PlacesOk(s) && ClosesOk(s) && NamesOk(s) && name !in s.timers
    ensures PlacesOk(Register(s, name, oneShot, repeats)) && ClosesOk(Register(s, name, oneShot, repeats))
    ensures forall y: nat :: Listed(Register(s, name, oneShot, repeats), y) <==> Listed(s, y) || y == |s.kinds|
  {
    var t := Register(s, name, oneShot, repeats);
    var x := |s.kinds|;
    assert x !in s.ctxs;
    forall y: nat ensures Listed(t, y) <==> Listed(s, y) || y == x {}
    assert s.freed[x] == 0 && s.closing[x] == 0;
  }

  lemma RegisterNames(s: Uv, name: string, oneShot: bool, repeats: bool)
    requires NamesOk(s) && name !in s.timers && |s.kinds| !in s.ctxs && (oneShot ==> !repeats)
    ensures NamesOk(Register(s, name, oneShot, repeats))
  {
    var t := Register(s, name, oneShot, repeats);
    forall y: nat ensures Listed(t, y) <==> Listed(s, y) || y == |s.kinds| {}
  }

  lemma RegisterFires(s: Uv, name: string, oneShot: bool, repeats: bool, running: int)
    requires NumbersOk(s) && FiresOk(s, running) && running < |s.kinds|
    requires oneShot <==> Reserved(name)
    requires forall n: nat :: n > s.counter ==> OneShotName(n) != name
    requires forall y: nat :: Listed(Register(s, name, oneShot, repeats), y) <==> Listed(s, y) || y == |s.kinds|
    ensures NumbersOk(Register(s, name, oneShot, repeats)) && FiresOk(Register(s, name, oneShot, repeats), running)
  {
    hide Listed;
  }

  lemma RegisterDuring(s: Uv, name: string, oneShot: bool, repeats: bool, running: int)
    requires During(s, running) && name !in s.timers && running < |s.kinds|
    requires (oneShot <==> Reserved(name)) && (oneShot ==> !repeats)
    requires forall n: nat :: n > s.counter ==> OneShotName(n) != name
    ensures During(Register(s, name, oneShot, repeats), running)
    ensures forall y: nat :: Listed(Register(s, name, oneShot, repeats), y) <==> Listed(s, y) || y == |s.kinds|
  {
    assert |s.kinds| !in s.ctxs;
    hide PlacesOk, ClosesOk, NamesOk, NumbersOk, FiresOk;
    RegisterPlaces(s, name, oneShot, repeats);
    RegisterNames(s, name, oneShot, repeats);
    RegisterFires(s, name, oneShot, repeats, running);
  }

  /** stop() of a started scheduler moves every registered context to the closing list. */
  lemma CloseAllPlaces(s: Uv)
    requires PlacesOk(s) && ClosesOk(s) && NamesOk(s)
    ensures PlacesOk(CloseAll(s)) && ClosesOk(CloseAll(s))
    ensures forall y: nat :: !Listed(CloseAll(s), y)
  {
    var t := CloseAll(s);
    forall y: nat ensures y in s.timers.Values <==> Listed(s, y) {
      if Listed(s, y) { assert s.ctxs[y].name in s.timers; }
    }
    forall y: nat ensures !Listed(t, y) {}
    forall y: nat ensures t.closing[y] == s.closing[y] + if y in s.timers.Values then 1 else 0 {}
  }

  lemma CloseAllNames(s: Uv, running: int)
    requires NamesOk(s) && NumbersOk(s) && FiresOk(s, running)
    ensures NamesOk(CloseAll(s)) && NumbersOk(CloseAll(s)) && FiresOk(CloseAll(s), running)
  {
    var t := CloseAll(s);
    forall y: nat | y in s.ctxs && s.ctxs[y].armed ensures y in s.timers.Values {
      assert Listed(s, y) && s.ctxs[y].name in s.timers;
    }
    forall y: nat ensures !Listed(t, y) {}
  }

  lemma StopDuring(s: Uv, running: int)
    requires During(s, running)
    ensures During(OnStop(s), running)
    ensures s.started ==> forall y: nat :: !Listed(OnStop(s), y)
  {
    if s.started {
      CloseAllPlaces(s);
      CloseAllNames(s, running);
      hide CloseAll, NamesOk, NumbersOk, ClosesOk, FiresOk, PlacesOk;
      var t := CloseAll(s);
      SameTimers(t, OnStop(s), running);
    }
  }

  lemma SameTimers(s: Uv, t: Uv, running: int)
    requires During(s, running)
    requires t == s.(started := t.started, asyncInited := t.asyncInited,
                     queue := t.queue, signal := t.signal, executed := t.executed, counter := t.counter)
    requires s.counter <= t.counter
    ensures During(t, running)
    ensures forall y: nat :: Listed(t, y) <==> Listed(s, y)
  {
    forall y: nat ensures Listed(t, y) <==> Listed(s, y) {}
  }

  lemma CounterNames(s: Uv, n: nat)
    requires NamesOk(s)
    ensures NamesOk(s.(counter := n))
  {
    forall x: nat ensures Listed(s.(counter := n), x) <==> Listed(s, x) {}
  }

  lemma AfterDuring(s: Uv, running: int)
    requires During(s, running) && running < |s.kinds|
    ensures During(StartAfter(s), running)
    ensures forall y: nat :: Listed(StartAfter(s), y) <==> Listed(s, y) || y == |s.kinds|
  {
    hide PlacesOk, ClosesOk, NamesOk, FiresOk;
    var s1 := s.(counter := s.counter + 1);
    var name := OneShotName(s.counter + 1);
    SameTimers(s, s1, running);
    assert Remove(s1, name) == s1;
    forall n: nat | n > s1.counter ensures OneShotName(n) != name { OneShotNames(n, s1.counter); }
    OneShotNames(0, s1.counter);
    hide NumbersOk;
    RegisterDuring(s1, name, true, false, running);
  }

  /** A call keeps the invariant, and only a stop of the started scheduler unregisters a running one-shot. */
  lemma PerformDuring(s: Uv, a: Act, running: int)
    requires During(s, running) && Proper(a) && running < |s.kinds| && (running >= 0 ==> s.kinds[running])
    ensures var t := Perform(s, a);
            && During(t, running) && s.kinds <= t.kinds
            && (running >= 0 ==> (Listed(t, running) <==> Listed(s, running) && !(a.Stop? && s.started)))
            && t.started == (if a.Start? then true else if a.Stop? then false else s.started)
            && t.freed == s.freed && t.fired == s.fired
            && (forall y: nat :: y < |s.kinds| && Listed(t, y) ==> Listed(s, y))
  {
    PerformFields(s, a);
    hide PlacesOk, ClosesOk, FiresOk, NamesOk, NumbersOk, Listed, Remove, Register, StartAfter, OnStop;
    match a
    case AddJob(name, interval) => AddDuring(s, name, interval, running);
    case RemoveJob(name) =>
      NotRunning(s, name, running);
      RemoveDuring(s, name, running);
    case After => AfterDuring(s, running);
    case Post(cb) => SameTimers(s, Perform(s, a), running);
    case Start => SameTimers(s, Perform(s, a), running);
    case Stop =>
      StopDuring(s, running);
      StopNothing(s);
  }

  /** A job name is not that of the running one-shot. */
  lemma NotRunning(s: Uv, name: string, running: int)
    requires NamesOk(s) && NumbersOk(s) && !Reserved(name) && running < |s.kinds| && (running >= 0 ==> s.kinds[running])
    ensures running >= 0 && name in s.timers ==> s.timers[name] != running
  {
  }

  lemma StopNothing(s: Uv)
    ensures !s.started ==> OnStop(s) == s
  {
  }

  lemma AddDuring(s: Uv, name: string, interval: nat, running: int)
    requires During(s, running) && !Reserved(name) && running < |s.kinds| && (running >= 0 ==> s.kinds[running])
    ensures var t := Perform(s, AddJob(name, interval));
            && During(t, running)
            && (running >= 0 ==> (Listed(t, running) <==> Listed(s, running)))
            && (forall y: nat :: y < |s.kinds| && Listed(t, y) ==> Listed(s, y))
  {
    forall n: nat ensures OneShotName(n) != name { OneShotNames(0, n); }
    NotRunning(s, name, running);
    hide PlacesOk, ClosesOk, FiresOk, NamesOk, NumbersOk, Listed, Register, OneShotName, Reserved;
    assert Remove(s, name).kinds == s.kinds;
    hide Remove;
    RemoveDuring(s, name, running);
    RegisterDuring(Remove(s, name), name, false, interval > 0, running);
  }

  lemma PerformFields(s: Uv, a: Act)
    ensures var t := Perform(s, a);
            && s.kinds <= t.kinds && t.freed == s.freed && t.fired == s.fired
            && t.started == (if a.Start? then true else if a.Stop? then false else s.started)
  {
  }

  lemma PerformQueue(s: Uv, a: Act)
    requires QueueOk(s.queue) && Proper(a)
    ensures QueueOk(Perform(s, a).queue)
  {
  }

  lemma RunActsQueue(s: Uv, acts: seq<Act>)
    requires QueueOk(s.queue) && AllProper(acts)
    ensures QueueOk(RunActs(s, acts).queue)
    decreases acts
  {
    if acts != [] {
      PerformQueue(s, acts[0]);
      hide Perform;
      RunActsQueue(Perform(s, acts[0]), acts[1..]);
    }
  }

  lemma RunActsDuring(s: Uv, acts: seq<Act>, running: int)
    requires During(s, running) && AllProper(acts) && running < |s.kinds| && (running >= 0 ==> s.kinds[running])
    ensures var t := RunActs(s, acts);
            && During(t, running) && s.kinds <= t.kinds
            && (running >= 0 ==> (Listed(t, running) <==> Listed(s, running) && !StopsScheduler(s.started, acts)))
            && t.freed == s.freed && t.fired == s.fired
            && (forall y: nat :: y < |s.kinds| && Listed(t, y) ==> Listed(s, y))
    decreases acts
  {
    if acts != [] {
      PerformDuring(s, acts[0], running);
      hide During, Perform, Listed;
      RunActsDuring(Perform(s, acts[0]), acts[1..], running);
    }
  }
}
