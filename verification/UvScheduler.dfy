/** The scheduler with its mutable fields, proved against the transition functions. */
module UvScheduler {
  import opened UvModel
  import opened UvInvariants
  import opened UvTheorems

  // ---- the class ----

  class Scheduler {
    var started: bool
    var asyncInited: bool
    var timers: map<string, nat>
    var ctxs: map<nat, Timer>       // the TimerCtx objects, by address
    var closing: multiset<nat>      // libuv's closing handles
    var counter: nat
    var postQueue: seq<Callback>
    var signal: bool                // libuv's flag of the async handle
    var nextCtx: nat                // the next address
    ghost var State: Uv             // the fields above, with the history

    ghost predicate Tied()
      reads this
    {
      && started == State.started && asyncInited == State.asyncInited && timers == State.timers && ctxs == State.ctxs
      && closing == State.closing && counter == State.counter && postQueue == State.queue && signal == State.signal
      && nextCtx == |State.kinds|
    }

    ghost predicate Valid()
      reads this
    {
      Tied() && Good(State)
    }

    constructor ()
      ensures Valid() && State == Init()
    {
      started, asyncInited, timers, ctxs, closing := false, false, map[], map[], multiset{};
      counter, postQueue, signal, nextCtx := 0, [], false, 0;
      State := Init();
      new;
      InitGood();
    }

    method StartScheduler()
      requires Tied()
      modifies this
      ensures Tied() && State == Perform(old(State), Start)
    {
      State := Perform(State, Start);
      if !started {
        asyncInited, signal, started := true, false, true;
      }
    }

    /** uv_timer_stop, owner = nullptr, uv_close */
    method CloseCtx(x: nat)
      requires Tied() && x in ctxs
      modifies this
      ensures Tied() && State == CloseTimer(old(State), x)
    {
      State := CloseTimer(State, x);
      ctxs := ctxs[x := ctxs[x].(armed := false, owned := false)];
      closing := closing + multiset{x};
    }

    /** stop(): close every registered context, then the async handle. */
    method StopScheduler()
      requires Tied() && NamesOk(State)
      modifies this
      ensures Tied() && State == OnStop(old(State))
    {
      if !started {
        return;
      }
      ghost var s := State;
      hide ClosedUpTo, CloseAll, NamesOk;
      CloseRegistered();
      AllClosed(s, State);
      Reset();
    }

    method Reset()
      requires Tied()
      modifies this
      ensures Tied() && State == old(State).(timers := map[], started := false, asyncInited := false, signal := false)
    {
      timers, started, asyncInited, signal := map[], false, false, false;
      State := State.(timers := map[], started := false, asyncInited := false, signal := false);
    }

    /** The loop of stop(), over the entries of timers_ in whatever order. */
    method CloseRegistered()
      requires Tied() && NamesOk(State)
      modifies this
      ensures Tied() && ClosedUpTo(old(State), old(State).timers.Keys, State)
    {
      ghost var s := State;
      var todo := timers.Keys;
      ghost var done: set<string> := {};
      NoneClosed(s);
      hide ClosedUpTo, NamesOk;
      while todo != {}
        invariant done + todo == s.timers.Keys && done !! todo
        invariant Tied() && ClosedUpTo(s, done, State)
        decreases todo
      {
        var name :| name in todo;
        ClosedMore(s, done, name, State);
        CloseCtx(timers[name]);
        todo, done := todo - {name}, done + {name};
      }
      assert done == s.timers.Keys;
    }

    method RemoveJobNamed(name: string)
      requires Tied() && NamesOk(State)
      modifies this
      ensures Tied() && State == Remove(old(State), name)
    {
      if name in timers {
        var x := timers[name];
        assert x in ctxs;
        hide NamesOk;
        timers := timers - {name};
        State := State.(timers := timers);
        CloseCtx(x);
      }
    }

    /** new TimerCtx, uv_timer_init, timers_[name] = ctx, uv_timer_start */
    method RegisterCtx(name: string, oneShot: bool, repeats: bool)
      requires Tied()
      modifies this
      ensures Tied() && State == Register(old(State), name, oneShot, repeats)
    {
      State := Register(State, name, oneShot, repeats);
      ctxs := ctxs[nextCtx := Timer(name, oneShot, repeats, true, true)];
      timers := timers[name := nextCtx];
      nextCtx := nextCtx + 1;
    }

    method StartOneShot()
      requires Tied() && NamesOk(State)
      modifies this
      ensures Tied() && State == StartAfter(old(State))
    {
      ghost var s1 := State.(counter := State.counter + 1);
      CounterNames(State, s1.counter);
      hide Remove, Register, OneShotName, NamesOk, Tied;
      var n := Count();
      assert State == s1;
      var name := OneShotName(n);
      RemoveJobNamed(name);
      RegisterCtx(name, true, false);
    }

    method PostCallback(cb: Callback)
      requires Tied()
      modifies this
      ensures Tied() && State == Perform(old(State), Post(cb))
    {
      State := Perform(State, Post(cb));
      postQueue := postQueue + [cb];
      signal := signal || asyncInited;
    }

    /** One call made by the program or by a running callback. */
    method Do(a: Act)
      requires Tied() && NamesOk(State)
      modifies this
      ensures Tied() && State == Perform(old(State), a)
    {
      hide NamesOk;
      match a
      case AddJob(name, interval) =>
        RemoveJobNamed(name);
        RegisterCtx(name, false, interval > 0);
      case RemoveJob(name) => RemoveJobNamed(name);
      case After => StartOneShot();
      case Post(cb) => PostCallback(cb);
      case Start => StartScheduler();
      case Stop => StopScheduler();
    }

    /** A callback runs; `running` is the one-shot it belongs to, or -1. */
    method RunCallback(acts: seq<Act>, ghost running: int)
      requires Tied() && During(State, running) && AllProper(acts) && running < |State.kinds|
      requires running >= 0 ==> State.kinds[running]
      modifies this
      ensures Tied() && State == RunActs(old(State), acts)
    {
      ghost var s := State;
      for i := 0 to |acts|
        invariant Tied() && During(State, running) && s.kinds <= State.kinds
        invariant RunActs(s, acts) == RunActs(State, acts[i..])
      {
        PerformDuring(State, acts[i], running);
        DuringNames(State, running);
        hide During;
        Do(acts[i]);
        assert acts[i..][1..] == acts[i + 1..];
      }
    }

    method ExpireCtx(x: nat)
      requires Tied() && x in ctxs
      modifies this
      ensures Tied() && State == Expire(old(State), x)
    {
      State := Expire(State, x);
      ctxs := ctxs[x := ctxs[x].(armed := ctxs[x].repeats)];
    }

    /** timer_cb and oneshot_timer_cb, as libuv calls them for an expired timer. */
    method OnTimer(x: nat, acts: seq<Act>)
      requires Tied() && Ok(State) && AllProper(acts)
      modifies this
      ensures Tied() && State == OnFire(old(State), x, acts)
    {
      if CanFire(State, x) { ExpireDuring(State, x); }
      hide During, NamesOk, Listed, AllProper, RunActs, FinishOneShot;
      if x !in ctxs || !ctxs[x].armed || x in closing {
        return;
      }
      var oneShot := ctxs[x].oneShot;
      ExpireCtx(x);
      hide Expire, Tied;
      RunCallback(acts, if oneShot then x else -1);
      if oneShot {
        EndOneShot(x);
      }
    }

    /** What oneshot_timer_cb does when the callback has returned or thrown. */
    method EndOneShot(x: nat)
      requires Tied()
      modifies this
      ensures Tied() && State == FinishOneShot(old(State), x)
    {
      State := FinishOneShot(State, x);
      if x in ctxs {
        if ctxs[x].owned { timers := timers - {ctxs[x].name}; }
        ctxs := ctxs[x := ctxs[x].(armed := false)];
        closing := closing + multiset{x};
      }
    }

    /** timer_close_cb */
    method OnCtxClosed(x: nat)
      requires Tied()
      modifies this
      ensures Tied() && State == OnClosed(old(State), x)
    {
      if x in closing {
        closing, ctxs := closing - multiset{x}, ctxs - {x};
        State := OnClosed(State, x);
      }
    }

    /** drain_post_queue, when libuv delivers the async signal. */
    method DrainPostQueue()
      requires Valid()
      modifies this
      ensures Tied() && State == OnWake(old(State))
    {
      if !signal {
        return;
      }
      SwapGood(State);
      hide Good, QueueOk, RunBatch;
      signal := false;
      var batch := postQueue;
      postQueue := [];
      State := State.(signal := false, queue := []);
      RunAll(batch);
    }

    method RunAll(batch: seq<Callback>)
      requires Valid() && QueueOk(batch)
      modifies this
      ensures Valid() && State == RunBatch(old(State), batch)
    {
      hide Good, RunActs, AllProper;
      ghost var s := State;
      for i := 0 to |batch|
        invariant Valid()
        invariant RunBatch(s, batch) == RunBatch(State, batch[i..])
      {
        RunOne(batch[i]);
        assert batch[i..][1..] == batch[i + 1..];
      }
    }

    ghost method Note(cb: Callback)
      requires Tied()
      modifies this
      ensures Tied() && State == old(State).(executed := old(State).executed + [cb.id])
    {
      State := State.(executed := State.executed + [cb.id]);
    }

    method RunOne(cb: Callback)
      requires Valid() && AllProper(cb.acts)
      modifies this
      ensures Valid() && State == RunActs(old(State).(executed := old(State).executed + [cb.id]), cb.acts)
    {
      RunOneGood(State, cb);
      hide Good, During, AllProper, RunActs;
      hide Tied;
      Note(cb);
      RunCallback(cb.acts, -1);
    }

    /** ++counter, which schedulers share. */
    method Count() returns (n: nat)
      requires Tied()
      modifies this
      ensures Tied() && State == old(State).(counter := old(State).counter + 1) && n == State.counter
    {
      counter := counter + 1;
      State := State.(counter := counter);
      n := counter;
    }

    method Deliver(e: Event)
      requires Valid() && Polite(State, e) && NamesOk(State)
      modifies this
      ensures Tied() && State == Step(old(State), e)
    {
      hide Tied, During, NamesOk, Perform, OnFire, OnClosed, OnWake, AllProper, StopsScheduler, QueueOk;
      match e
      case Do(a) => Do(a);
      case Fire(x, acts) => OnTimer(x, acts);
      case Closed(x) => OnCtxClosed(x);
      case Wake => DrainPostQueue();
      case Elsewhere => var n := Count();
    }

    /** Whatever happens next keeps the invariant. */
    method Dispatch(e: Event)
      requires Valid() && Polite(State, e)
      modifies this
      ensures Valid() && State == Step(old(State), e)
    {
      StepGood(State, e);
      DuringNames(State, -1);
      hide Good, Tied, Polite, NamesOk, Step, Fades;
      Deliver(e);
    }
  }

  lemma SwapGood(s: Uv)
    requires Good(s)
    ensures Good(s.(signal := false, queue := [])) && QueueOk(s.queue)
  {
    SameTimers(s, s.(signal := false, queue := []), -1);
    hide During;
  }

  lemma RunOneGood(s: Uv, cb: Callback)
    requires Good(s) && AllProper(cb.acts)
    ensures var s1 := s.(executed := s.executed + [cb.id]);
            During(s1, -1) && Good(RunActs(s1, cb.acts))
  {
    var s1 := s.(executed := s.executed + [cb.id]);
    SameTimers(s, s1, -1);
    hide During;
    RunActsDuring(s1, cb.acts, -1);
    RunActsQueue(s1, cb.acts);
  }

  lemma DuringNames(s: Uv, running: int)
    requires During(s, running)
    ensures NamesOk(s)
  {
  }

  // ---- closing the registered contexts one at a time ----

  function Under(s: Uv, names: set<string>): set<nat> {
    set name | name in names && name in s.timers :: s.timers[name]
  }

  function Silenced(ctxs: map<nat, Timer>, xs: set<nat>): map<nat, Timer> {
    map x | x in ctxs :: if x in xs then ctxs[x].(armed := false, owned := false) else ctxs[x]
  }

  /** In t the contexts registered in s under `names` are closed; nothing else differs. */
  ghost predicate ClosedUpTo(s: Uv, names: set<string>, t: Uv) {
    var xs := Under(s, names);
    t == s.(ctxs := Silenced(s.ctxs, xs),
            closing := s.closing + multiset(xs),
            closed := s.closed + multiset(xs))
  }

  lemma NoneClosed(s: Uv)
    ensures ClosedUpTo(s, {}, s)
  {
    assert Under(s, {}) == {};
    assert s.ctxs == Silenced(s.ctxs, {});
  }

  lemma ClosedMore(s: Uv, names: set<string>, name: string, t: Uv)
    requires ClosedUpTo(s, names, t) && NamesOk(s) && name in s.timers && name !in names
    ensures t.timers == s.timers && s.timers[name] in t.ctxs
    ensures ClosedUpTo(s, names + {name}, CloseTimer(t, s.timers[name]))
  {
    var x := s.timers[name];
    var xs := Under(s, names);
    assert x !in xs;
    assert Under(s, names + {name}) == xs + {x};
    hide NamesOk, Under;
    assert multiset(xs + {x}) == multiset(xs) + multiset{x};
    var u := CloseTimer(t, x);
    assert u.ctxs == Silenced(s.ctxs, xs + {x});
  }

  lemma AllClosed(s: Uv, t: Uv)
    requires ClosedUpTo(s, s.timers.Keys, t)
    ensures t.(timers := map[]) == CloseAll(s)
  {
    assert Under(s, s.timers.Keys) == s.timers.Values;
  }
}
