/**
  The state of the browser manager and its transition functions, as values.

  A std::function stored by the manager is represented by a datatype naming the closure and what
  it captures (`Handler`), a user callback by the finite tree of manager calls it makes while it
  runs (`Act`).  A raw context pointer is a number; `heap` holds the contexts that have been
  allocated and not yet deleted.  Fields marked "history" are not in the program: they record the
  run, and the theorems speak about them.
 */
module CdpModel {

  /** The (on_ok, on_error) pair stored in pending_ under a command id. */
  datatype Handler =
    | Create(call: nat, platform: string)
    | Attach(call: nat, platform: string, target: string)
    | AddScript(call: nat, platform: string, ctx: nat)
    | Close(ctx: nat)
    | Poll(wait: nat)
    | KeyDown(ctx: nat, tag: nat)
    | User(tag: nat)
    | Noop

  /** The protocol methods the manager itself uses; `Other` stands for those a caller names. */
  datatype Method = CreateTarget | AttachToTarget | AddInitScript | PageEnable | CloseTarget | Evaluate | DispatchKey | Other

  /** A command on the wire: arg is the target id, the selector or the key event where there is one. */
  datatype Msg = Msg(id: int, name: Method, session: string, arg: string)

  /** A CdpBrowserContext; guards are the shared flags pushed by `after`. */
  datatype Ctx = Ctx(platform: string, target: string, session: string, closed: bool, guards: set<nat>)

  /** What the closure of one wait_for_selector call captures, with its shared `done` flag. */
  datatype Wait = Wait(ctx: nat, css: string, start: nat, timeout: nat, done: bool)

  /** The payload of a reply: a target or session id, or whether the polled selector exists. */
  datatype Payload = Payload(text: string, found: bool)

  /** One call a user callback makes, to a context or to the manager.  `inner` is what the callback of
      that call does in case the call completes it at once. */
  datatype Act =
    | Send(tag: nat)
    | Operate(ptr: nat, checked: bool, tag: nat, inner: seq<Act>)
    | PressKey(ptr: nat, tag: nat, inner: seq<Act>)
    | GetContext(platform: string, inner: seq<Act>)
    | CloseContext(ptr: nat, inner: seq<Act>)
    | After(ptr: nat)
    | WaitFor(ptr: nat, css: string, timeout: nat, inner: seq<Act>)
    | RemoveFromCache(platform: string)
    | StartManager
    | StopManager

  datatype Event =
    | Call(acts: seq<Act>)                                                // the program calls the manager
    | Reply(id: int, ok: bool, data: Payload, dt: nat, acts: seq<Act>)    // a posted message is handled
    | Opened                                                              // the posted Open handler runs
    | Start
    | Launched(good: bool)                                                // the launch job is done
    | Stop
    | Checked(wait: nat, dt: nat, acts: seq<Act>)                         // a posted check runs
    | Fired(guard: nat, acts: seq<Act>)                                   // a one-shot timer expires

  /** The command multiplexer. */
  datatype Mux = Mux(
    cmdId: int,
    wsReady: bool,
    pending: map<int, Handler>,
    queue: seq<Msg>,
    wire: seq<Msg>,                   // history: messages passed to sendText
    issued: map<int, Handler>,        // history: the handler registered with each id
    answered: multiset<(int, bool)>,  // history: handlers run, by id and side (true for on_ok)
    dropped: set<int>)                // history: ids cleared from the queue by start()

  /** The context cache and the context objects. */
  datatype Pool = Pool(
    contexts: map<string, nat>,
    heap: map<nat, Ctx>,
    nextPtr: nat,                     // history: contexts allocated so far
    ctxCmd: map<nat, int>,            // history: the add-script command that carried a context
    freed: multiset<nat>)             // history

  /** History of the get_context calls. */
  datatype Book = Book(
    calls: seq<string>,               // platform of each call
    callCmd: map<nat, int>,           // latest command issued for a call
    got: multiset<nat>,               // on_ok(ctx) run for a call
    result: map<nat, nat>,            // the context it was given
    failed: multiset<nat>,            // on_error run for a call
    silent: multiset<nat>)            // calls ended by an add-script error

  /** The wait_for_selector loops. */
  datatype Poller = Poller(
    waits: seq<Wait>,
    posted: multiset<nat>,            // checks in the scheduler's post queue
    waitCmd: map<nat, int>,           // history: latest evaluate issued for a wait
    found: multiset<nat>,             // history: on_found run
    timedOut: multiset<nat>,          // history: on_timeout run
    polls: seq<seq<nat>>,             // history: times at which evaluates were issued
    stalled: bool)                    // history: some reply came without the clock advancing

  /** The callbacks deferred by `after`. */
  datatype Timers = Timers(
    armed: set<nat>,                  // one-shots armed in the scheduler
    alive: seq<bool>,                 // the shared guard flags
    owner: seq<nat>,                  // history: the context that deferred the callback
    ran: multiset<nat>)               // history: callbacks that ran

  datatype Mgr = Mgr(
    started: bool,
    clock: nat,
    mux: Mux,
    pool: Pool,
    book: Book,
    poller: Poller,
    timers: Timers,
    dangling: bool)                   // history: a context the cache does not own was dereferenced

  function Init(): Mgr {
    Mgr(false, 0,
        Mux(0, false, map[], [], [], map[], multiset{}, {}),
        Pool(map[], map[], 0, map[], multiset{}),
        Book([], map[], multiset{}, map[], multiset{}, multiset{}),
        Poller([], multiset{}, map[], multiset{}, multiset{}, [], false),
        Timers({}, [], [], multiset{}),
        false)
  }

  /** The conversion (int64_t)timeout_ms of an unsigned 64-bit value. */
  function Int64(x: nat): int {
    (x + 0x8000_0000_0000_0000) % 0x1_0000_0000_0000_0000 - 0x8000_0000_0000_0000
  }

  /** The cache owns the context x. */
  predicate Owned(contexts: map<string, nat>, heap: map<nat, Ctx>, x: nat) {
    x in heap && heap[x].platform in contexts && contexts[heap[x].platform] == x
  }

  /** A pointer a caller may use. */
  predicate Usable(p: Pool, x: nat) {
    Owned(p.contexts, p.heap, x)
  }

  function Dangle(s: Mgr): Mgr {
    s.(dangling := true)
  }

  // ---- sending ----

  function Issue(m: Mux, h: Handler, name: Method, session: string, arg: string): Mux {
    var msg := Msg(m.cmdId, name, session, arg);
    m.(cmdId := m.cmdId + 1,
       pending := m.pending[m.cmdId := h],
       issued := m.issued[m.cmdId := h],
       queue := if m.wsReady then m.queue else m.queue + [msg],
       wire := if m.wsReady then m.wire + [msg] else m.wire)
  }

  function SendCommand(s: Mgr, h: Handler, name: Method, session: string, arg: string): Mgr {
    s.(mux := Issue(s.mux, h, name, session, arg))
  }

  // ---- contexts ----

  /** The destructors of the contexts in `gone` clear their guards. */
  function ClearGuards(t: Timers, heap: map<nat, Ctx>, gone: set<nat>): (u: Timers)
    ensures |u.alive| == |t.alive| && forall g :: 0 <= g < |u.alive| && u.alive[g] ==> t.alive[g]
    ensures u.owner == t.owner && u.ran == t.ran && u.armed == t.armed
  {
    t.(alive := seq(|t.alive|, g requires 0 <= g < |t.alive| =>
                      t.alive[g] && !exists x :: x in gone && x in heap && g in heap[x].guards))
  }

  /** `delete` of one context. */
  function Destroy(s: Mgr, x: nat): Mgr {
    s.(pool := s.pool.(heap := s.pool.heap - {x}, freed := s.pool.freed + multiset{x}),
       timers := ClearGuards(s.timers, s.pool.heap, {x}))
  }

  /** contexts_.erase(platform) */
  function RemoveContext(s: Mgr, q: string): Mgr {
    if q !in s.pool.contexts then s
    else Destroy(s.(pool := s.pool.(contexts := s.pool.contexts - {q})), s.pool.contexts[q])
  }

  /** contexts_[platform].reset(raw) */
  function InstallContext(s: Mgr, q: string, x: nat): Mgr {
    var s1 := RemoveContext(s, q);
    s1.(pool := s1.pool.(contexts := s1.pool.contexts[q := x]))
  }

  /** contexts_.clear() */
  function ClearContexts(s: Mgr): Mgr {
    var gone := s.pool.contexts.Values;
    s.(pool := s.pool.(contexts := map[], heap := s.pool.heap - gone, freed := s.pool.freed + multiset(gone)),
       timers := ClearGuards(s.timers, s.pool.heap, gone))
  }

  // ---- get_context ----

  function Fail(s: Mgr, c: nat): Mgr {
    s.(book := s.book.(failed := s.book.failed + multiset{c}))
  }

  function Silence(s: Mgr, c: nat): Mgr {
    s.(book := s.book.(silent := s.book.silent + multiset{c}))
  }

  function Deliver(s: Mgr, c: nat, x: nat): Mgr {
    s.(book := s.book.(got := s.book.got + multiset{c}, result := s.book.result[c := x]))
  }

  function SendForCall(s: Mgr, c: nat, h: Handler, name: Method, session: string, arg: string): Mgr {
    SendCommand(s.(book := s.book.(callCmd := s.book.callCmd[c := s.mux.cmdId])), h, name, session, arg)
  }

  /** The call is answered at once: an error when not started, otherwise a cache hit. */
  predicate AnswersAtOnce(s: Mgr, q: string) {
    !s.started || q in s.pool.contexts
  }

  /** do_get_context up to the point where a user callback may run. */
  function AskContext(s: Mgr, q: string): Mgr {
    var c := |s.book.calls|;
    var s1 := s.(book := s.book.(calls := s.book.calls + [q]));
    if !s.started then Fail(s1, c)
    else if q in s.pool.contexts then Deliver(s1, c, s.pool.contexts[q])
    else SendForCall(s1, c, Create(c, q), CreateTarget, "", "")
  }

  function Allocate(s: Mgr, t: Ctx): Mgr {
    var x := s.pool.nextPtr;
    s.(pool := s.pool.(heap := s.pool.heap[x := t], nextPtr := x + 1, ctxCmd := s.pool.ctxCmd[x := s.mux.cmdId]))
  }

  /** The continuation of attachToTarget: allocate, inject the script, enable the Page domain. */
  function Attached(s: Mgr, c: nat, q: string, target: string, session: string): Mgr {
    var s1 := Allocate(s, Ctx(q, target, session, false, {}));
    var s2 := SendForCall(s1, c, AddScript(c, q, s.pool.nextPtr), AddInitScript, session, "");
    SendCommand(s2, Noop, PageEnable, session, "")
  }

  // ---- context operations ----

  function SetCtx(s: Mgr, x: nat, t: Ctx): Mgr {
    s.(pool := s.pool.(heap := s.pool.heap[x := t]))
  }

  function StartClose(s: Mgr, x: nat): Mgr
    requires x in s.pool.heap
  {
    var t := s.pool.heap[x];
    SendCommand(SetCtx(s, x, t.(closed := true)), Close(x), CloseTarget, "", t.target)
  }

  function Defer(s: Mgr, x: nat): Mgr
    requires x in s.pool.heap
  {
    var g := |s.timers.alive|;
    var t := s.pool.heap[x];
    SetCtx(s, x, t.(guards := t.guards + {g}))
      .(timers := s.timers.(alive := s.timers.alive + [true], armed := s.timers.armed + {g}, owner := s.timers.owner + [x]))
  }

  function StartWait(s: Mgr, x: nat, css: string, timeout: nat): Mgr {
    var p := s.poller;
    s.(poller := p.(waits := p.waits + [Wait(x, css, s.clock, timeout, false)], polls := p.polls + [[]],
                    posted := p.posted + multiset{|p.waits|}))
  }

  /** wait_for_selector on a closed context: on_timeout at once. */
  function RefuseWait(s: Mgr, x: nat, css: string, timeout: nat): Mgr {
    var p := s.poller;
    s.(poller := p.(waits := p.waits + [Wait(x, css, s.clock, timeout, true)], polls := p.polls + [[]],
                    timedOut := p.timedOut + multiset{|p.waits|}))
  }

  function SetDone(p: Poller, w: nat): Poller
    requires w < |p.waits|
  {
    p.(waits := p.waits[w := p.waits[w].(done := true)])
  }

  function Find(s: Mgr, w: nat): Mgr
    requires w < |s.poller.waits|
  {
    s.(poller := SetDone(s.poller, w).(found := s.poller.found + multiset{w}))
  }

  function TimeOut(s: Mgr, w: nat): Mgr
    requires w < |s.poller.waits|
  {
    s.(poller := SetDone(s.poller, w).(timedOut := s.poller.timedOut + multiset{w}))
  }

  function GiveUp(s: Mgr, w: nat): Mgr
    requires w < |s.poller.waits|
  {
    s.(poller := SetDone(s.poller, w))
  }

  function IssuePoll(s: Mgr, w: nat, session: string): Mgr
    requires w < |s.poller.waits| && w < |s.poller.polls|
  {
    var p := s.poller;
    SendCommand(s.(poller := p.(waitCmd := p.waitCmd[w := s.mux.cmdId], polls := p.polls[w := p.polls[w] + [s.clock]])),
                Poll(w), Evaluate, session, p.waits[w].css)
  }

  predicate Expired(t: Wait, clock: nat) {
    clock - t.start >= Int64(t.timeout)
  }

  /** The check closure up to the point where on_timeout may run.  Reading closed_ of a deleted
      context is flagged and, the source leaving it undefined, treated like reading true. */
  function Check(s: Mgr, w: nat): Mgr {
    if w >= |s.poller.waits| || w >= |s.poller.polls| then s
    else
      var t := s.poller.waits[w];
      if t.done then s
      else if t.ctx !in s.pool.heap then Dangle(GiveUp(s, w))
      else if s.pool.heap[t.ctx].closed then GiveUp(s, w)
      else if Expired(t, s.clock) then TimeOut(s, w)
      else IssuePoll(s, w, s.pool.heap[t.ctx].session)
  }

  predicate CheckTimesOut(s: Mgr, w: nat) {
    && w < |s.poller.waits| && w < |s.poller.polls|
    && var t := s.poller.waits[w];
       !t.done && t.ctx in s.pool.heap && !s.pool.heap[t.ctx].closed && Expired(t, s.clock)
  }

  // ---- starting and stopping ----

  function Ids(ms: seq<Msg>): set<int> {
    set i | 0 <= i < |ms| :: ms[i].id
  }

  function Reset(m: Mux): Mux {
    m.(wsReady := false, queue := [], dropped := m.dropped + Ids(m.queue))
  }

  function OnStart(s: Mgr): Mgr {
    if s.started then s else s.(mux := Reset(s.mux))
  }

  function OnStop(s: Mgr): Mgr {
    if !s.started then s
    else
      var s1 := ClearContexts(s);
      s1.(timers := s1.timers.(armed := {}), started := false)
  }

  // ---- user callbacks ----

  /** The call completes by invoking its callback before it returns. */
  predicate AtOnce(s: Mgr, a: Act)
    ensures AtOnce(s, a) ==> a.Operate? || a.PressKey? || a.GetContext? || a.CloseContext? || a.WaitFor?
  {
    match a
    case Operate(x, checked, _, _) => checked && Usable(s.pool, x) && s.pool.heap[x].closed
    case PressKey(x, _, _) => Usable(s.pool, x) && s.pool.heap[x].closed
    case GetContext(q, _) => AnswersAtOnce(s, q)
    case CloseContext(x, _) => Usable(s.pool, x) && s.pool.heap[x].closed
    case WaitFor(x, _, _, _) => Usable(s.pool, x) && s.pool.heap[x].closed
    case _ => false
  }

  /** A call up to the callback it may invoke. */
  function Enter(s: Mgr, a: Act): Mgr {
    match a
    case Send(tag) => SendCommand(s, User(tag), Other, "", "")
    case GetContext(q, _) => AskContext(s, q)
    case RemoveFromCache(q) => RemoveContext(s, q)
    case StartManager => OnStart(s)
    case StopManager => OnStop(s)
    case _ => if Usable(s.pool, a.ptr) then EnterContext(s, a) else Dangle(s)
  }

  /** A call to a context that the cache owns. */
  function EnterContext(s: Mgr, a: Act): Mgr
    requires a.Operate? || a.PressKey? || a.CloseContext? || a.After? || a.WaitFor?
    requires a.ptr in s.pool.heap
  {
    var t := s.pool.heap[a.ptr];
    match a
    case Operate(_, checked, tag, _) =>
      if checked && t.closed then s else SendCommand(s, User(tag), Other, t.session, "")
    case PressKey(x, tag, _) =>
      if t.closed then s else SendCommand(s, KeyDown(x, tag), DispatchKey, t.session, "keyDown")
    case CloseContext(x, _) => if t.closed then s else StartClose(s, x)
    case After(x) => Defer(s, x)
    case WaitFor(x, css, timeout, _) =>
      if t.closed then RefuseWait(s, x, css, timeout) else StartWait(s, x, css, timeout)
  }

  function RunActs(s: Mgr, acts: seq<Act>): Mgr
    decreases acts, 0
  {
    if acts == [] then s else RunActs(RunAct(s, acts[0]), acts[1..])
  }

  function RunAct(s: Mgr, a: Act): Mgr
    decreases a, 1
  {
    if AtOnce(s, a) then RunActs(Enter(s, a), a.inner) else Enter(s, a)
  }

  // ---- replies ----

  /** What the stored handler itself does, before the user callback it may call.  A handler that finds
      its context deleted is flagged and, the source leaving it undefined, does nothing. */
  function React(s: Mgr, h: Handler, ok: bool, data: Payload): Mgr {
    match h
    case Create(c, q) =>
      if ok then SendForCall(s, c, Attach(c, q, data.text), AttachToTarget, "", data.text) else Fail(s, c)
    case Attach(c, q, target) =>
      if ok then Attached(s, c, q, target, data.text) else Fail(s, c)
    case AddScript(c, q, x) =>
      if ok then Deliver(InstallContext(s, q, x), c, x) else Silence(Destroy(s, x), c)
    case Close(x) =>
      if !ok then s
      else if x !in s.pool.heap then Dangle(s)
      else RemoveContext(s, s.pool.heap[x].platform)
    case Poll(w) =>
      if w >= |s.poller.waits| || s.poller.waits[w].done then s
      else if ok && data.found then Find(s, w)
      else Check(s, w)
    case KeyDown(x, tag) =>
      if !ok then s
      else if x !in s.pool.heap then Dangle(s)
      else SendCommand(s, User(tag), DispatchKey, s.pool.heap[x].session, "keyUp")
    case User(_) => s
    case Noop => s
  }

  /** Does the handler go on to call a user callback? */
  predicate CallsUser(s: Mgr, h: Handler, ok: bool, data: Payload) {
    match h
    case Create(_, _) => !ok
    case Attach(_, _, _) => !ok
    case AddScript(_, _, _) => ok
    case Close(x) => !ok || x in s.pool.heap
    case Poll(w) =>
      w < |s.poller.waits| && !s.poller.waits[w].done && ((ok && data.found) || CheckTimesOut(s, w))
    case KeyDown(_, _) => !ok
    case User(_) => true
    case Noop => false
  }

  function Handle(s: Mgr, h: Handler, ok: bool, data: Payload, acts: seq<Act>): Mgr {
    RunActs(React(s, h, ok, data), if CallsUser(s, h, ok, data) then acts else [])
  }

  function Erase(s: Mgr, id: int): Mgr {
    s.(mux := s.mux.(pending := s.mux.pending - {id}))
  }

  function Answer(s: Mgr, id: int, ok: bool): Mgr {
    s.(mux := s.mux.(answered := s.mux.answered + multiset{(id, ok)}))
  }

  /** on_ws_message for a reply: the handler runs while its entry is still in pending_. */
  function OnReply(s: Mgr, id: int, ok: bool, data: Payload, acts: seq<Act>): Mgr {
    if id !in s.mux.pending then s
    else Erase(Handle(Answer(s, id, ok), s.mux.pending[id], ok, data, acts), id)
  }

  // ---- life cycle ----

  function Open(m: Mux): Mux {
    var id := m.cmdId;
    m.(wsReady := true,
       queue := [],
       cmdId := id + 1,
       pending := m.pending[id := Noop],
       issued := m.issued[id := Noop],
       wire := m.wire + m.queue + [Msg(id, PageEnable, "", "")])
  }

  predicate FiresCallback(s: Mgr, g: nat) {
    g in s.timers.armed && g < |s.timers.alive| && s.timers.alive[g]
  }

  function Disarm(s: Mgr, g: nat, runs: bool): Mgr {
    s.(timers := s.timers.(armed := s.timers.armed - {g},
                           ran := if runs then s.timers.ran + multiset{g} else s.timers.ran))
  }

  /** The one-shot of `after`: the lambda calls the callback only while its flag is set. */
  function OnFired(s: Mgr, g: nat, acts: seq<Act>): Mgr {
    if g !in s.timers.armed then s
    else RunActs(Disarm(s, g, FiresCallback(s, g)), if FiresCallback(s, g) then acts else [])
  }

  function Unpost(s: Mgr, w: nat): Mgr {
    s.(poller := s.poller.(posted := s.poller.posted - multiset{w}))
  }

  function OnChecked(s: Mgr, w: nat, acts: seq<Act>): Mgr {
    if w !in s.poller.posted then s
    else RunActs(Check(Unpost(s, w), w), if CheckTimesOut(s, w) then acts else [])
  }

  /** Time passes before an event; `stalled` records a reply that came without the clock moving. */
  function Tick(s: Mgr, dt: nat, reply: bool): Mgr {
    s.(clock := s.clock + dt, poller := s.poller.(stalled := s.poller.stalled || (reply && dt == 0)))
  }

  function Step(s: Mgr, e: Event): Mgr {
    match e
    case Call(acts) => RunActs(s, acts)
    case Reply(id, ok, data, dt, acts) => OnReply(Tick(s, dt, true), id, ok, data, acts)
    case Opened => s.(mux := Open(s.mux))
    case Start => OnStart(s)
    case Launched(good) => if good then s.(started := true) else s
    case Stop => OnStop(s)
    case Checked(w, dt, acts) => OnChecked(Tick(s, dt, false), w, acts)
    case Fired(g, acts) => OnFired(s, g, acts)
  }

  function Run(s: Mgr, es: seq<Event>): Mgr
    decreases es
  {
    if es == [] then s else Run(Step(s, es[0]), es[1..])
  }
}
