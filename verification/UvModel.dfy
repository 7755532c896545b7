/**
  The scheduler over libuv, as values.  A TimerCtx is named by its address, a number; `ctxs` holds
  those allocated and not yet deleted.  Of libuv the model keeps the contract used: a stopped or
  closing timer does not fire, and each uv_close is followed by one close callback.
 */
module UvModel {
  import Decimal

  datatype Timer = Timer(name: string, oneShot: bool, repeats: bool, armed: bool, owned: bool)

  /** A user callback: the scheduler calls it makes until it returns or throws. */
  datatype Callback = Callback(id: nat, acts: seq<Act>)

  datatype Act =
    | AddJob(name: string, interval: nat)
    | RemoveJob(name: string)
    | After
    | Post(callback: Callback)
    | Start
    | Stop

  datatype Event =
    | Do(act: Act)                       // the program calls the scheduler
    | Fire(timer: nat, acts: seq<Act>)   // a timer expires; acts are what its callback does
    | Closed(timer: nat)                 // libuv reports a handle closed
    | Wake                               // libuv delivers the async signal
    | Elsewhere                          // another scheduler takes a number from the shared counter

  datatype Uv = Uv(
    started: bool,
    asyncInited: bool,
    timers: map<string, nat>,
    ctxs: map<nat, Timer>,
    closing: multiset<nat>,      // handles given to uv_close, close callback outstanding
    counter: nat,                // the static counter behind the names of one-shots
    queue: seq<Callback>,
    signal: bool,                // the coalescing flag of the async handle
    kinds: seq<bool>,            // history: for every TimerCtx ever allocated, is it a one-shot?
    closed: multiset<nat>,       // history: uv_close calls
    freed: multiset<nat>,        // history: deletes
    fired: multiset<nat>,        // history: timer callbacks run
    executed: seq<nat>)          // history: posted callbacks run

  function Init(): Uv {
    Uv(false, false, map[], map[], multiset{}, 0, [], false, [], multiset{}, multiset{}, multiset{}, [])
  }

  /** uv_timer_stop, owner = nullptr, uv_close */
  function CloseTimer(s: Uv, x: nat): Uv {
    s.(ctxs := if x in s.ctxs then s.ctxs[x := s.ctxs[x].(armed := false, owned := false)] else s.ctxs,
       closing := s.closing + multiset{x},
       closed := s.closed + multiset{x})
  }

  function Remove(s: Uv, name: string): Uv {
    if name !in s.timers then s
    else CloseTimer(s.(timers := s.timers - {name}), s.timers[name])
  }

  function Register(s: Uv, name: string, oneShot: bool, repeats: bool): Uv {
    var x := |s.kinds|;
    s.(ctxs := s.ctxs[x := Timer(name, oneShot, repeats, true, true)],
       timers := s.timers[name := x],
       kinds := s.kinds + [oneShot])
  }

  function OneShotName(n: nat): string {
    "_a_" + Decimal.Print(n)
  }

  function StartAfter(s: Uv): Uv {
    var name := OneShotName(s.counter + 1);
    Register(Remove(s.(counter := s.counter + 1), name), name, true, false)
  }

  /** The contexts registered in timers_ are stopped, disowned and closed. */
  function CloseAll(s: Uv): Uv {
    var xs := s.timers.Values;
    s.(timers := map[],
       ctxs := map x | x in s.ctxs :: if x in xs then s.ctxs[x].(armed := false, owned := false) else s.ctxs[x],
       closing := s.closing + multiset(xs),
       closed := s.closed + multiset(xs))
  }

  function OnStop(s: Uv): Uv {
    if !s.started then s
    else CloseAll(s).(started := false, asyncInited := false, signal := false)
  }

  function Perform(s: Uv, a: Act): Uv {
    match a
    case AddJob(name, interval) => Register(Remove(s, name), name, false, interval > 0)
    case RemoveJob(name) => Remove(s, name)
    case After => StartAfter(s)
    case Post(cb) => s.(queue := s.queue + [cb], signal := s.signal || s.asyncInited)
    case Start => if s.started then s else s.(asyncInited := true, started := true, signal := false)
    case Stop => OnStop(s)
  }

  function RunActs(s: Uv, acts: seq<Act>): Uv
    decreases acts
  {
    if acts == [] then s else RunActs(Perform(s, acts[0]), acts[1..])
  }

  /** libuv disarms an expired timer and arms it again if it repeats, before the callback. */
  function Expire(s: Uv, x: nat): Uv
    requires x in s.ctxs
  {
    s.(ctxs := s.ctxs[x := s.ctxs[x].(armed := s.ctxs[x].repeats)], fired := s.fired + multiset{x})
  }

  /** The tail of oneshot_timer_cb: stop, remove itself from its owner's map, close. */
  function FinishOneShot(s: Uv, x: nat): Uv {
    if x !in s.ctxs then s
    else
      s.(timers := if s.ctxs[x].owned then s.timers - {s.ctxs[x].name} else s.timers,
         ctxs := s.ctxs[x := s.ctxs[x].(armed := false)],
         closing := s.closing + multiset{x},
         closed := s.closed + multiset{x})
  }

  predicate CanFire(s: Uv, x: nat) {
    x in s.ctxs && s.ctxs[x].armed && x !in s.closing
  }

  function OnFire(s: Uv, x: nat, acts: seq<Act>): Uv {
    if !CanFire(s, x) then s
    else
      var t := RunActs(Expire(s, x), acts);
      if s.ctxs[x].oneShot then FinishOneShot(t, x) else t
  }

  function OnClosed(s: Uv, x: nat): Uv {
    if x !in s.closing then s
    else s.(closing := s.closing - multiset{x}, ctxs := s.ctxs - {x}, freed := s.freed + multiset{x})
  }

  function RunBatch(s: Uv, batch: seq<Callback>): Uv
    decreases batch
  {
    if batch == [] then s
    else RunBatch(RunActs(s.(executed := s.executed + [batch[0].id]), batch[0].acts), batch[1..])
  }

  /** async_cb: swap the queue out, then run the batch. */
  function OnWake(s: Uv): Uv {
    if !s.signal then s else RunBatch(s.(signal := false, queue := []), s.queue)
  }

  function Step(s: Uv, e: Event): Uv {
    match e
    case Do(a) => Perform(s, a)
    case Fire(x, acts) => OnFire(s, x, acts)
    case Closed(x) => OnClosed(s, x)
    case Wake => OnWake(s)
    case Elsewhere => s.(counter := s.counter + 1)
  }

  function Run(s: Uv, es: seq<Event>): Uv
    decreases es
  {
    if es == [] then s else Run(Step(s, es[0]), es[1..])
  }
}
