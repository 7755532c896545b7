/**
  The one-shots of the scheduler, as the browser manager sees them.  The manager's model keeps the set
  of callbacks it deferred and that are still armed; here each kind of call and of scheduler step is
  shown to keep that set what the scheduler's timers make of it.  Module Joint composes them.
 */
module OneShots {
  import C = CdpModel
  import opened UvModel
  import opened UvInvariants
  import opened UvTheorems

  /** Callback g was handed to the scheduler as context names[g]; it is armed for the manager exactly
      when that one-shot is registered in timers_, except for the one whose callback is running. */
  ghost predicate Matches(t: C.Timers, s: Uv, names: seq<nat>, running: int) {
    && |names| == |t.alive|
    && (forall g :: 0 <= g < |names| ==> names[g] < |s.kinds| && s.kinds[names[g]])
    && (forall g, h :: 0 <= g < h < |names| ==> names[g] != names[h])
    && (forall g: nat :: g in t.armed <==> g < |names| && Listed(s, names[g]) && names[g] != running)
  }

  /** Nothing deferred yet. */
  lemma InitMatches()
    ensures Matches(C.Init().timers, Init(), [], -1)
  {
  }

  /** after: the manager arms the next callback, the scheduler registers the next context. */
  lemma DeferMatches(m: C.Mgr, x: nat, s: Uv, names: seq<nat>, running: int)
    requires Matches(m.timers, s, names, running) && During(s, running) && running < |s.kinds| && x in m.pool.heap
    ensures Matches(C.Defer(m, x).timers, Perform(s, After), names + [|s.kinds|], running)
  {
    hide During, StartAfter, Listed, C.Defer, Matches;
    AfterDuring(s, running);
    AfterKinds(s);
    DeferTimers(m, x);
    OneMore(m.timers, C.Defer(m, x).timers, s, StartAfter(s), names, running);
  }

  lemma OneMore(t: C.Timers, u: C.Timers, s: Uv, r: Uv, names: seq<nat>, running: int)
    requires Matches(t, s, names, running) && running < |s.kinds|
    requires |u.alive| == |t.alive| + 1 && u.armed == t.armed + {|t.alive|} && r.kinds == s.kinds + [true]
    requires forall y: nat :: Listed(r, y) <==> Listed(s, y) || y == |s.kinds|
    ensures Matches(u, r, names + [|s.kinds|], running)
  {
    hide Listed;
  }

  lemma DeferTimers(m: C.Mgr, x: nat)
    requires x in m.pool.heap
    ensures var t, u := m.timers, C.Defer(m, x).timers;
            |u.alive| == |t.alive| + 1 && u.armed == t.armed + {|t.alive|}
  {
  }

  lemma AfterKinds(s: Uv)
    ensures StartAfter(s).kinds == s.kinds + [true]
  {
  }

  /** stop() of the manager and of its started scheduler disarm everything. */
  lemma StopMatches(m: C.Mgr, s: Uv, names: seq<nat>, running: int)
    requires Matches(m.timers, s, names, running) && During(s, running) && m.started && s.started
    ensures Matches(C.OnStop(m).timers, Perform(s, Stop), names, running)
  {
    hide During, OnStop, Listed, C.OnStop, Matches;
    StopDuring(s, running);
    StopFields(m, s);
    NoneLeft(m.timers, C.OnStop(m).timers, s, OnStop(s), names, running);
  }

  lemma NoneLeft(t: C.Timers, u: C.Timers, s: Uv, r: Uv, names: seq<nat>, running: int)
    requires Matches(t, s, names, running)
    requires |u.alive| == |t.alive| && u.armed == {} && r.kinds == s.kinds && forall y: nat :: !Listed(r, y)
    ensures Matches(u, r, names, running)
  {
    hide Listed;
  }

  lemma StopFields(m: C.Mgr, s: Uv)
    ensures OnStop(s).kinds == s.kinds
    ensures |C.OnStop(m).timers.alive| == |m.timers.alive| && (m.started ==> C.OnStop(m).timers.armed == {})
  {
    hide CloseTimer;
  }

  /** A call that does not come from after or stop() of the manager leaves the match alone, also an after
      of somebody else. */
  lemma OtherMatches(t: C.Timers, s: Uv, a: Act, names: seq<nat>, running: int)
    requires Matches(t, s, names, running) && During(s, running) && Proper(a) && running < |s.kinds|
    requires running >= 0 ==> s.kinds[running]
    requires !a.Stop?
    ensures Matches(t, Perform(s, a), names, running)
  {
    PerformDuring(s, a, running);
    hide During, Perform, Listed;
    forall g | 0 <= g < |names| ensures Listed(Perform(s, a), names[g]) <==> Listed(s, names[g]) {
      if Listed(s, names[g]) { OneShotsStay(s, a, names[g], running); }
    }
    hide Matches;
    SameOneShots(t, s, Perform(s, a), names, running);
  }

  lemma SameOneShots(t: C.Timers, s: Uv, r: Uv, names: seq<nat>, running: int)
    requires Matches(t, s, names, running) && s.kinds <= r.kinds
    requires forall g :: 0 <= g < |names| ==> (Listed(r, names[g]) <==> Listed(s, names[g]))
    ensures Matches(t, r, names, running)
  {
    hide Listed;
    forall g | 0 <= g < |names| ensures names[g] < |r.kinds| && r.kinds[names[g]] {
      assert r.kinds[names[g]] == s.kinds[names[g]];
    }
  }

  /** One-shots of somebody else may run or not. */
  lemma OthersRunning(t: C.Timers, s: Uv, names: seq<nat>, x: nat)
    requires x !in names
    ensures Matches(t, s, names, x) <==> Matches(t, s, names, -1)
  {
    hide Listed;
  }

  /** The close callback frees a context that is registered no more. */
  lemma ClosedMatches(t: C.Timers, s: Uv, names: seq<nat>, x: nat)
    requires Matches(t, s, names, -1) && Good(s)
    ensures Matches(t, OnClosed(s, x), names, -1)
  {
    if x in s.closing {
      ClosedPlaces(s, x);
      hide Good, Listed, Matches;
      SameOneShots(t, s, OnClosed(s, x), names, -1);
    }
  }

  /** A timer that is not the manager's expires. */
  lemma OtherExpires(t: C.Timers, s: Uv, names: seq<nat>, x: nat)
    requires Matches(t, s, names, -1) && Ok(s) && CanFire(s, x) && x !in names
    ensures var running := if s.ctxs[x].oneShot then x else -1;
            Matches(t, Expire(s, x), names, running) && During(Expire(s, x), running)
  {
    ExpireDuring(s, x);
    ExpireFields(s, x);
    hide During, Listed, Expire, Matches;
    SameOneShots(t, s, Expire(s, x), names, -1);
    OthersRunning(t, Expire(s, x), names, x);
  }

  lemma OtherFinishes(t: C.Timers, s: Uv, names: seq<nat>, x: nat)
    requires Matches(t, s, names, x) && During(s, x) && Listed(s, x) && x !in names
    ensures Matches(t, FinishOneShot(s, x), names, -1)
  {
    FinishOk(s, x);
    FinishFields(s, x);
    hide During, Listed, Matches, FinishOneShot;
    OthersRunning(t, s, names, x);
    SameOneShots(t, s, FinishOneShot(s, x), names, -1);
  }

  lemma OneShotsStay(s: Uv, a: Act, x: nat, running: int)
    requires During(s, running) && Proper(a) && running < |s.kinds| && !a.Stop?
    requires x < |s.kinds| && s.kinds[x] && Listed(s, x)
    ensures Listed(Perform(s, a), x)
  {
    match a
    case AddJob(name, interval) =>
      RemoveStays(s, name, x, running);
      RemoveKinds(s, name);
      RegisterStays(Remove(s, name), name, interval > 0, x);
      hide During, Listed, Remove, Register;
    case RemoveJob(name) =>
      RemoveStays(s, name, x, running);
      hide During, Listed, Remove;
    case After =>
      AfterDuring(s, running);
      hide During, Listed, StartAfter;
    case Post(_) => hide During;
    case Start => hide During;
  }

  lemma RemoveStays(s: Uv, name: string, x: nat, running: int)
    requires During(s, running) && !Reserved(name) && x < |s.kinds| && s.kinds[x] && Listed(s, x)
    ensures Listed(Remove(s, name), x) && name !in Remove(s, name).timers
  {
    assert Reserved(s.ctxs[x].name);
    assert name in s.timers ==> s.timers[name] != x;
    hide PlacesOk, ClosesOk, FiresOk, NamesOk, NumbersOk, Listed;
    RemoveDuring(s, name, running);
  }

  lemma RemoveKinds(s: Uv, name: string)
    ensures Remove(s, name).kinds == s.kinds
  {
  }

  lemma RegisterStays(s: Uv, name: string, repeats: bool, x: nat)
    requires Listed(s, x) && name !in s.timers && x < |s.kinds|
    ensures Listed(Register(s, name, false, repeats), x)
  {
  }

  /** A one-shot can expire exactly while the manager has its callback armed. */
  lemma FiresIffArmed(t: C.Timers, s: Uv, names: seq<nat>, g: nat)
    requires Matches(t, s, names, -1) && Ok(s) && g < |names|
    ensures CanFire(s, names[g]) <==> g in t.armed
  {
    var x := names[g];
    if CanFire(s, x) { assert Listed(s, x); }
    if Listed(s, x) { assert s.closing[x] == 0; }
  }

  /** It expires: the manager disarms it before its callback runs... */
  lemma ExpireMatches(m: C.Mgr, s: Uv, names: seq<nat>, g: nat, runs: bool)
    requires Matches(m.timers, s, names, -1) && Ok(s) && g in m.timers.armed
    ensures Matches(C.Disarm(m, g, runs).timers, Expire(s, names[g]), names, names[g])
    ensures During(Expire(s, names[g]), names[g])
  {
    assert g < |names|;
    FiresIffArmed(m.timers, s, names, g);
    ExpireDuring(s, names[g]);
    ExpireFields(s, names[g]);
    hide During, Listed, Expire, Matches;
    OneRunning(m.timers, C.Disarm(m, g, runs).timers, s, Expire(s, names[g]), names, g);
  }

  lemma OneRunning(t: C.Timers, u: C.Timers, s: Uv, r: Uv, names: seq<nat>, g: nat)
    requires Matches(t, s, names, -1) && g < |names|
    requires |u.alive| == |t.alive| && u.armed == t.armed - {g} && r.kinds == s.kinds
    requires forall y: nat :: Listed(r, y) <==> Listed(s, y)
    ensures Matches(u, r, names, names[g])
  {
    hide Listed;
  }

  lemma ExpireFields(s: Uv, x: nat)
    requires x in s.ctxs
    ensures Expire(s, x).kinds == s.kinds
  {
  }

  /** ...and the scheduler unregisters it after that. */
  lemma FinishMatches(t: C.Timers, s: Uv, names: seq<nat>, x: nat)
    requires Matches(t, s, names, x) && During(s, x) && Listed(s, x)
    ensures Matches(t, FinishOneShot(s, x), names, -1)
  {
    FinishOk(s, x);
    FinishFields(s, x);
    hide During, Listed;
  }
}
