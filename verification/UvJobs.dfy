/** When a registered timer fires, over every run of the scheduler. */
module UvJobs {
  import opened UvModel
  import opened UvInvariants
  import opened UvTheorems

  /** Context x belongs to a job that repeats or not.  While it is registered it is armed, except for a
      job that does not repeat and has fired. */
  ghost predicate JobOk(s: Uv, x: nat, repeats: bool) {
    && x < |s.kinds| && !s.kinds[x]
    && (Listed(s, x) ==> s.ctxs[x].repeats == repeats && s.ctxs[x].armed == (repeats || s.fired[x] == 0))
  }

  /** What may happen to context x other than its own expiry: it stays as it is or ceases to be
      registered. */
  ghost predicate Untouched(s: Uv, t: Uv, x: nat) {
    && t.fired[x] == s.fired[x] && s.kinds <= t.kinds
    && (Listed(t, x) ==> Listed(s, x) && t.ctxs[x] == s.ctxs[x])
  }

  lemma UntouchedJob(s: Uv, t: Uv, x: nat, repeats: bool)
    requires JobOk(s, x, repeats) && Untouched(s, t, x)
    ensures JobOk(t, x, repeats)
  {
  }

  lemma UntouchedTrans(s: Uv, t: Uv, u: Uv, x: nat)
    requires Untouched(s, t, x) && Untouched(t, u, x)
    ensures Untouched(s, u, x)
  {
  }

  lemma CloseTouches(s: Uv, name: string, x: nat)
    requires NamesOk(s) && (x in s.ctxs ==> x < |s.kinds|)
    ensures Untouched(s, Remove(s, name), x)
  {
    if name in s.timers && s.timers[name] == x && Listed(Remove(s, name), x) {
      assert false;
    }
  }

  lemma RegisterTouches(s: Uv, name: string, oneShot: bool, repeats: bool, x: nat)
    requires x < |s.kinds|
    ensures Untouched(s, Register(s, name, oneShot, repeats), x)
  {
  }

  lemma CloseAllTouches(s: Uv, x: nat)
    ensures Untouched(s, OnStop(s), x)
  {
  }

  lemma PerformTouches(s: Uv, a: Act, x: nat)
    requires NamesOk(s) && x < |s.kinds|
    ensures Untouched(s, Perform(s, a), x)
  {
    hide NamesOk, Remove, Register, OnStop, OneShotName, Untouched;
    match a
    case AddJob(name, interval) =>
      CloseTouches(s, name, x);
      RemoveKinds(s, name);
      RegisterTouches(Remove(s, name), name, false, interval > 0, x);
      UntouchedTrans(s, Remove(s, name), Perform(s, a), x);
    case RemoveJob(name) => CloseTouches(s, name, x);
    case After => AfterTouches(s, x);
    case Post(cb) => SameUntouched(s, Perform(s, a), x);
    case Start => SameUntouched(s, Perform(s, a), x);
    case Stop => CloseAllTouches(s, x);
  }

  lemma RemoveKinds(s: Uv, name: string)
    ensures Remove(s, name).kinds == s.kinds
  {
  }

  lemma SameUntouched(s: Uv, t: Uv, x: nat)
    requires t.timers == s.timers && t.ctxs == s.ctxs && t.kinds == s.kinds && t.fired == s.fired
    ensures Untouched(s, t, x)
  {
  }

  lemma AfterTouches(s: Uv, x: nat)
    requires NamesOk(s) && x < |s.kinds|
    ensures Untouched(s, StartAfter(s), x)
  {
    hide NamesOk, Remove, Register, OneShotName, Untouched;
    var s1 := s.(counter := s.counter + 1);
    var name := OneShotName(s.counter + 1);
    var s2 := Remove(s1, name);
    CounterNames(s, s1.counter);
    SameUntouched(s, s1, x);
    CloseTouches(s1, name, x);
    RemoveKinds(s1, name);
    RegisterTouches(s2, name, true, false, x);
    UntouchedTrans(s, s1, s2, x);
    UntouchedTrans(s, s2, StartAfter(s), x);
  }

  lemma ActsTouch(s: Uv, acts: seq<Act>, running: int, x: nat)
    requires During(s, running) && AllProper(acts) && running < |s.kinds| && (running >= 0 ==> s.kinds[running])
    requires x < |s.kinds|
    ensures Untouched(s, RunActs(s, acts), x)
    decreases acts
  {
    if acts != [] {
      PerformDuring(s, acts[0], running);
      assert NamesOk(s);
      hide During, Perform, NamesOk;
      PerformTouches(s, acts[0], x);
      hide Untouched;
      ActsTouch(Perform(s, acts[0]), acts[1..], running, x);
      UntouchedTrans(s, Perform(s, acts[0]), RunActs(s, acts), x);
    }
  }

  lemma BatchTouches(s: Uv, batch: seq<Callback>, x: nat)
    requires Good(s) && QueueOk(batch) && x < |s.kinds|
    ensures Untouched(s, RunBatch(s, batch), x)
    decreases batch
  {
    if batch != [] {
      var s1 := s.(executed := s.executed + [batch[0].id]);
      var t := RunActs(s1, batch[0].acts);
      assert AllProper(batch[0].acts) && QueueOk(batch[1..]);
      SameTimers(s, s1, -1);
      SameUntouched(s, s1, x);
      hide During, RunActs, QueueOk, AllProper, Untouched;
      RunActsDuring(s1, batch[0].acts, -1);
      RunActsQueue(s1, batch[0].acts);
      ActsTouch(s1, batch[0].acts, -1, x);
      BatchTouches(t, batch[1..], x);
      UntouchedTrans(s, s1, t, x);
      UntouchedTrans(s, t, RunBatch(s, batch), x);
    }
  }

  lemma ExpireJob(s: Uv, x: nat, repeats: bool)
    requires JobOk(s, x, repeats) && x in s.ctxs && Listed(s, x)
    ensures JobOk(Expire(s, x), x, repeats)
  {
  }

  lemma ExpireTouches(s: Uv, x: nat, y: nat)
    requires y in s.ctxs && x != y
    ensures Untouched(s, Expire(s, y), x)
  {
  }

  lemma FinishTouches(s: Uv, x: nat, y: nat)
    requires x != y
    ensures Untouched(s, FinishOneShot(s, y), x)
  {
  }

  lemma ClosedTouches(s: Uv, x: nat, y: nat)
    ensures Untouched(s, OnClosed(s, y), x)
  {
  }

  /** The state in which the expiry of context x, if that is the event, has taken place. */
  function Expired(s: Uv, e: Event, x: nat): Uv {
    if e.Fire? && e.timer == x && CanFire(s, x) then Expire(s, x) else s
  }

  lemma FireTouches(s: Uv, y: nat, acts: seq<Act>, x: nat)
    requires Good(s) && Polite(s, Fire(y, acts)) && CanFire(s, y) && x < |s.kinds| && !s.kinds[x]
    ensures Untouched(Expired(s, Fire(y, acts), x), OnFire(s, y, acts), x)
  {
    var s1 := Expire(s, y);
    var t := RunActs(s1, acts);
    ExpireDuring(s, y);
    SameUntouched(s1, s1, x);
    if x != y { ExpireTouches(s, x, y); }
    hide During, Listed, FinishOneShot, AllProper, RunActs, Untouched;
    var from := Expired(s, Fire(y, acts), x);
    ActsTouch(s1, acts, if s.ctxs[y].oneShot then y else -1, x);
    UntouchedTrans(from, s1, t, x);
    if s.ctxs[y].oneShot {
      FinishTouches(t, x, y);
      UntouchedTrans(from, t, FinishOneShot(t, y), x);
    }
  }

  lemma StepTouches(s: Uv, e: Event, x: nat)
    requires Good(s) && Polite(s, e) && x < |s.kinds| && !s.kinds[x]
    ensures Untouched(Expired(s, e, x), Step(s, e), x)
  {
    hide PlacesOk, ClosesOk, NumbersOk, FiresOk, NamesOk, Listed, Untouched, RunBatch, Perform, OnClosed;
    match e
    case Do(a) => PerformTouches(s, a, x);
    case Fire(y, acts) =>
      hide OnFire;
      SameUntouched(s, s, x);
      if CanFire(s, y) { FireTouches(s, y, acts, x); } else { NotFired(s, y, acts); }
    case Closed(y) => ClosedTouches(s, x, y);
    case Wake =>
      SameUntouched(s, s, x);
      if s.signal {
        var s1 := s.(signal := false, queue := []);
        SameTimers(s, s1, -1);
        SameUntouched(s, s1, x);
        BatchTouches(s1, s.queue, x);
        UntouchedTrans(s, s1, RunBatch(s1, s.queue), x);
      }
    case Elsewhere => SameUntouched(s, Step(s, e), x);
  }

  lemma StepJob(s: Uv, e: Event, x: nat, repeats: bool)
    requires Good(s) && Polite(s, e) && JobOk(s, x, repeats)
    ensures JobOk(Step(s, e), x, repeats)
  {
    if CanFire(s, x) {
      ExpireDuring(s, x);
      ExpireJob(s, x, repeats);
    }
    StepTouches(s, e, x);
    hide Good, Polite, Step, Untouched, CanFire;
    UntouchedJob(Expired(s, e, x), Step(s, e), x, repeats);
  }

  lemma NotFired(s: Uv, x: nat, acts: seq<Act>)
    requires !CanFire(s, x)
    ensures OnFire(s, x, acts) == s
  {
  }

  lemma RunJob(s: Uv, es: seq<Event>, x: nat, repeats: bool)
    requires Good(s) && PoliteRun(s, es) && JobOk(s, x, repeats)
    ensures Good(Run(s, es)) && JobOk(Run(s, es), x, repeats)
    decreases es
  {
    if es != [] {
      StepGood(s, es[0]);
      hide Good, Polite, JobOk, Step, Fades;
      StepJob(s, es[0], x, repeats);
      RunJob(Step(s, es[0]), es[1..], x, repeats);
    }
  }

  lemma Registered(s: Uv, name: string, interval: nat)
    requires Good(s) && !Reserved(name)
    ensures var t := Step(s, Do(AddJob(name, interval))); var x := |s.kinds|;
            && Good(t) && name in t.timers && t.timers[name] == x && Listed(t, x) && t.fired[x] == 0
            && JobOk(t, x, interval > 0)
  {
    StepGood(s, Do(AddJob(name, interval)));
    RemoveKinds(s, name);
    RemoveFired(s, name);
  }

  lemma RemoveFired(s: Uv, name: string)
    ensures Remove(s, name).fired == s.fired
  {
  }

  lemma FireableIff(s: Uv, x: nat, repeats: bool)
    requires Good(s) && JobOk(s, x, repeats)
    ensures CanFire(s, x) <==> Listed(s, x) && (repeats || s.fired[x] == 0)
  {
    if Listed(s, x) { assert x < |s.kinds| && s.closing[x] == 0; }
  }

  /** A job is registered under its name and has not fired; and over any run from there it can fire
      exactly while it is registered, again and again with a positive interval, and once without. */
  lemma JobFiresIff(s: Uv, name: string, interval: nat, es: seq<Event>)
    requires Good(s) && !Reserved(name) && PoliteRun(Step(s, Do(AddJob(name, interval))), es)
    ensures var t := Step(s, Do(AddJob(name, interval))); var u := Run(t, es); var x := |s.kinds|;
            && name in t.timers && t.timers[name] == x && Listed(t, x) && t.fired[x] == 0
            && (CanFire(u, x) <==> Listed(u, x) && (interval > 0 || u.fired[x] == 0))
  {
    var t := Step(s, Do(AddJob(name, interval)));
    Registered(s, name, interval);
    hide Good, JobOk, Step, Run, PoliteRun, Listed;
    RunJob(t, es, |s.kinds|, interval > 0);
    FireableIff(Run(t, es), |s.kinds|, interval > 0);
  }

  // ---- how long a timer stays registered ----

  /** The call unregisters the name: it removes or replaces its job, or stops the started scheduler. */
  predicate Unregisters(s: Uv, a: Act, name: string) {
    ((a.RemoveJob? || a.AddJob?) && a.name == name) || (a.Stop? && s.started)
  }

  ghost predicate ActsUnregister(s: Uv, acts: seq<Act>, name: string)
    decreases acts
  {
    acts != [] && (Unregisters(s, acts[0], name) || ActsUnregister(Perform(s, acts[0]), acts[1..], name))
  }

  ghost predicate BatchUnregisters(s: Uv, batch: seq<Callback>, name: string)
    decreases batch
  {
    && batch != []
    && var s1 := s.(executed := s.executed + [batch[0].id]);
       ActsUnregister(s1, batch[0].acts, name) || BatchUnregisters(RunActs(s1, batch[0].acts), batch[1..], name)
  }

  ghost predicate StepUnregisters(s: Uv, e: Event, name: string) {
    match e
    case Do(a) => Unregisters(s, a, name)
    case Fire(x, acts) => CanFire(s, x) && ActsUnregister(Expire(s, x), acts, name)
    case Wake => s.signal && BatchUnregisters(s.(signal := false, queue := []), s.queue, name)
    case _ => false
  }

  lemma PerformListed(s: Uv, a: Act, running: int, x: nat)
    requires During(s, running) && Proper(a) && running < |s.kinds| && (running >= 0 ==> s.kinds[running]) && Listed(s, x)
    ensures Listed(Perform(s, a), x) <==> !Unregisters(s, a, s.ctxs[x].name)
  {
    hide PlacesOk, ClosesOk, NamesOk, NumbersOk, FiresOk, Listed, Remove, Register, StartAfter, OnStop;
    match a
    case AddJob(name, interval) => AddListed(s, name, interval, running, x);
    case RemoveJob(name) => RemoveListed(s, name, running, x);
    case After =>
      AfterDuring(s, running);
      ListedName(s, x);
    case Post(cb) => SameTimers(s, Perform(s, a), running);
    case Start => SameTimers(s, Perform(s, a), running);
    case Stop =>
      StopDuring(s, running);
      StopNothing(s);
  }

  lemma ListedName(s: Uv, x: nat)
    requires NamesOk(s) && Listed(s, x)
    ensures x < |s.kinds| && forall name :: name in s.timers && s.timers[name] == x <==> name == s.ctxs[x].name
  {
  }

  lemma RemoveListed(s: Uv, name: string, running: int, x: nat)
    requires During(s, running) && Listed(s, x)
    ensures Listed(Remove(s, name), x) <==> name != s.ctxs[x].name
  {
    ListedName(s, x);
    RemoveDuring(s, name, running);
    hide Remove, NamesOk;
  }

  lemma AddListed(s: Uv, name: string, interval: nat, running: int, x: nat)
    requires During(s, running) && Listed(s, x)
    ensures Listed(Perform(s, AddJob(name, interval)), x) <==> name != s.ctxs[x].name
  {
    ListedName(s, x);
    RemoveListed(s, name, running, x);
    RemoveDuring(s, name, running);
    RemoveKinds(s, name);
    hide Remove, During, Listed, Register;
    RegisterElsewhere(Remove(s, name), name, false, interval > 0, x);
  }

  lemma RegisterElsewhere(s: Uv, name: string, oneShot: bool, repeats: bool, x: nat)
    requires x < |s.kinds| && name !in s.timers
    ensures Listed(Register(s, name, oneShot, repeats), x) <==> Listed(s, x)
  {
  }

  lemma SameName(s: Uv, t: Uv, x: nat)
    requires Untouched(s, t, x) && Listed(t, x)
    ensures t.ctxs[x].name == s.ctxs[x].name
  {
  }

  lemma ActsListed(s: Uv, acts: seq<Act>, running: int, x: nat)
    requires During(s, running) && AllProper(acts) && running < |s.kinds| && (running >= 0 ==> s.kinds[running])
    requires Listed(s, x) && x < |s.kinds|
    ensures Listed(RunActs(s, acts), x) <==> !ActsUnregister(s, acts, s.ctxs[x].name)
    decreases acts
  {
    if acts != [] {
      var t := Perform(s, acts[0]);
      PerformDuring(s, acts[0], running);
      PerformListed(s, acts[0], running, x);
      assert NamesOk(s);
      hide During, Perform, NamesOk, Untouched, Unregisters;
      PerformTouches(s, acts[0], x);
      RunActsDuring(t, acts[1..], running);
      hide Listed, RunActs;
      if Listed(t, x) {
        SameName(s, t, x);
        ActsListed(t, acts[1..], running, x);
      }
      OneMoreAct(s, acts);
    }
  }

  lemma OneMoreAct(s: Uv, acts: seq<Act>)
    requires acts != []
    ensures RunActs(s, acts) == RunActs(Perform(s, acts[0]), acts[1..])
  {
  }

  lemma BatchListed(s: Uv, batch: seq<Callback>, x: nat)
    requires Good(s) && QueueOk(batch) && Listed(s, x) && x < |s.kinds|
    ensures Listed(RunBatch(s, batch), x) <==> !BatchUnregisters(s, batch, s.ctxs[x].name)
    decreases batch
  {
    if batch != [] {
      var s1 := s.(executed := s.executed + [batch[0].id]);
      var t := RunActs(s1, batch[0].acts);
      assert AllProper(batch[0].acts) && QueueOk(batch[1..]);
      SameTimers(s, s1, -1);
      hide During, RunActs, QueueOk, AllProper, Untouched, Listed, ActsUnregister;
      RunActsDuring(s1, batch[0].acts, -1);
      RunActsQueue(s1, batch[0].acts);
      ActsTouch(s1, batch[0].acts, -1, x);
      ActsListed(s1, batch[0].acts, -1, x);
      BatchGood(t, batch[1..]);
      if Listed(t, x) {
        SameName(s1, t, x);
        BatchListed(t, batch[1..], x);
      }
    }
  }

  lemma FireListed(s: Uv, y: nat, acts: seq<Act>, x: nat)
    requires Good(s) && Polite(s, Fire(y, acts)) && CanFire(s, y) && Listed(s, x) && x < |s.kinds| && !s.kinds[x]
    ensures Listed(OnFire(s, y, acts), x) <==> !ActsUnregister(Expire(s, y), acts, s.ctxs[x].name)
  {
    var s1 := Expire(s, y);
    var t := RunActs(s1, acts);
    var running := if s.ctxs[y].oneShot then y else -1;
    ExpireDuring(s, y);
    hide During, FinishOneShot, AllProper, RunActs, Untouched, ActsUnregister;
    assert s1.ctxs[x].name == s.ctxs[x].name;
    hide Listed;
    RunActsDuring(s1, acts, running);
    ActsListed(s1, acts, running, x);
    if s.ctxs[y].oneShot { FinishOk(t, y); }
  }

  lemma StepListed(s: Uv, e: Event, x: nat)
    requires Good(s) && Polite(s, e) && Listed(s, x) && x < |s.kinds| && !s.kinds[x]
    ensures Listed(Step(s, e), x) <==> !StepUnregisters(s, e, s.ctxs[x].name)
  {
    hide PlacesOk, ClosesOk, NumbersOk, FiresOk, NamesOk, RunBatch, Perform, OnClosed, Listed, ActsUnregister,
         BatchUnregisters, Unregisters;
    match e
    case Do(a) => PerformListed(s, a, -1, x);
    case Fire(y, acts) =>
      hide OnFire;
      if CanFire(s, y) { FireListed(s, y, acts, x); } else { NotFired(s, y, acts); }
    case Closed(y) => if y in s.closing { ClosedPlaces(s, y); } else { NotClosing(s, y); }
    case Wake =>
      if s.signal {
        var s1 := s.(signal := false, queue := []);
        SameTimers(s, s1, -1);
        BatchListed(s1, s.queue, x);
      }
    case Elsewhere => SameTimers(s, Step(s, e), -1);
  }

  lemma NotClosing(s: Uv, x: nat)
    requires x !in s.closing
    ensures OnClosed(s, x) == s
  {
  }

  ghost predicate RunUnregisters(s: Uv, es: seq<Event>, name: string)
    decreases es
  {
    es != [] && (StepUnregisters(s, es[0], name) || RunUnregisters(Step(s, es[0]), es[1..], name))
  }

  lemma StepName(s: Uv, e: Event, t: Uv, x: nat)
    requires x in s.ctxs && Listed(t, x)
    requires Good(s) && Polite(s, e) && x < |s.kinds| && !s.kinds[x] && t == Step(s, e)
    ensures x < |t.kinds| && !t.kinds[x] && t.ctxs[x].name == s.ctxs[x].name
  {
    StepTouches(s, e, x);
    hide Good, Polite, Step, CanFire;
    SameName(Expired(s, e, x), t, x);
  }

  /** A job stays registered over any run until the program or a callback removes it by its name, replaces
      it, or stops the started scheduler; and the run unregisters it exactly then. */
  lemma RegisteredUntil(s: Uv, es: seq<Event>, x: nat)
    requires Good(s) && PoliteRun(s, es) && Listed(s, x) && x < |s.kinds| && !s.kinds[x]
    ensures Listed(Run(s, es), x) <==> !RunUnregisters(s, es, s.ctxs[x].name)
    decreases es
  {
    if es != [] {
      var t := Step(s, es[0]);
      StepGood(s, es[0]);
      StepListed(s, es[0], x);
      RunGood(t, es[1..]);
      hide Good, Polite, Step, Listed, StepUnregisters;
      if Listed(t, x) {
        StepName(s, es[0], t, x);
        RegisteredUntil(t, es[1..], x);
      }
    }
  }
}
