/** When posted callbacks run, over every run of the scheduler. */
module UvWakeups {
  import opened UvModel
  import P = PostQueue

  function Ids(cbs: seq<Callback>): seq<nat> {
    if cbs == [] then [] else [cbs[0].id] + Ids(cbs[1..])
  }

  lemma {:induction false} IdsAppend(a: seq<Callback>, b: seq<Callback>)
    ensures Ids(a + b) == Ids(a) + Ids(b)
    decreases a
  {
    if a == [] {
      assert a + b == b;
    } else {
      assert (a + b)[1..] == a[1..] + b;
      IdsAppend(a[1..], b);
    }
  }

  lemma Assoc(a: seq<nat>, b: seq<nat>, c: seq<nat>)
    ensures a + (b + c) == a + b + c
  {
  }

  // ---- what is posted runs, once and in order ----

  /** The ids that the calls of one callback post. */
  function PostedBy(acts: seq<Act>): seq<nat> {
    if acts == [] then [] else (if acts[0].Post? then [acts[0].callback.id] else []) + PostedBy(acts[1..])
  }

  function PostedByAll(batch: seq<Callback>): seq<nat> {
    if batch == [] then [] else PostedBy(batch[0].acts) + PostedByAll(batch[1..])
  }

  /** The ids that a step posts: by the program, by the callback of a timer that can fire, or by the
      waiting callbacks that a delivered signal runs. */
  function Posted(s: Uv, e: Event): seq<nat> {
    match e
    case Do(a) => PostedBy([a])
    case Fire(x, acts) => if CanFire(s, x) then PostedBy(acts) else []
    case Wake => if s.signal then PostedByAll(s.queue) else []
    case _ => []
  }

  function AllPosted(s: Uv, es: seq<Event>): seq<nat>
    decreases es
  {
    if es == [] then [] else Posted(s, es[0]) + AllPosted(Step(s, es[0]), es[1..])
  }

  lemma PerformPosts(s: Uv, a: Act)
    ensures Perform(s, a).executed == s.executed && Ids(Perform(s, a).queue) == Ids(s.queue) + PostedBy([a])
  {
    if a.Post? {
      IdsAppend(s.queue, [a.callback]);
      assert Ids([a.callback]) == [a.callback.id];
    }
    if a.AddJob? || a.RemoveJob? || a.After? { TimersKeepPosts(s, a); }
    hide Ids, Remove, Register, StartAfter, CloseAll;
    assert PostedBy([a]) == if a.Post? then [a.callback.id] else [];
  }

  lemma {:induction false} ActsPost(s: Uv, acts: seq<Act>)
    ensures RunActs(s, acts).executed == s.executed && Ids(RunActs(s, acts).queue) == Ids(s.queue) + PostedBy(acts)
    decreases acts
  {
    if acts != [] {
      var t := Perform(s, acts[0]);
      PerformPosts(s, acts[0]);
      assert PostedBy([acts[0]]) == (if acts[0].Post? then [acts[0].callback.id] else []) + PostedBy([]);
      assert PostedBy(acts) == PostedBy([acts[0]]) + PostedBy(acts[1..]);
      hide Perform, Ids, PostedBy;
      ActsPost(t, acts[1..]);
      Assoc(Ids(s.queue), PostedBy([acts[0]]), PostedBy(acts[1..]));
    }
  }

  lemma {:induction false} BatchPosts(s: Uv, batch: seq<Callback>)
    ensures RunBatch(s, batch).executed == s.executed + Ids(batch)
    ensures Ids(RunBatch(s, batch).queue) == Ids(s.queue) + PostedByAll(batch)
    decreases batch
  {
    if batch != [] {
      var s1 := s.(executed := s.executed + [batch[0].id]);
      var t := RunActs(s1, batch[0].acts);
      assert Ids(batch) == [batch[0].id] + Ids(batch[1..]);
      hide RunActs, PostedBy, Ids;
      ActsPost(s1, batch[0].acts);
      BatchPosts(t, batch[1..]);
      Assoc(s.executed, [batch[0].id], Ids(batch[1..]));
      Assoc(Ids(s.queue), PostedBy(batch[0].acts), PostedByAll(batch[1..]));
    }
  }

  lemma FinishKeepsPosts(s: Uv, x: nat)
    ensures var t := FinishOneShot(s, x);
            && t.executed == s.executed && t.queue == s.queue && t.signal == s.signal
            && t.started == s.started && t.asyncInited == s.asyncInited
  {
  }

  lemma ClosedKeepsPosts(s: Uv, x: nat)
    ensures var t := OnClosed(s, x);
            && t.executed == s.executed && t.queue == s.queue && t.signal == s.signal
            && t.started == s.started && t.asyncInited == s.asyncInited
  {
  }

  lemma TimersKeepPosts(s: Uv, a: Act)
    requires a.AddJob? || a.RemoveJob? || a.After?
    ensures var t := Perform(s, a);
            && t.executed == s.executed && t.queue == s.queue && t.signal == s.signal
            && t.started == s.started && t.asyncInited == s.asyncInited
  {
  }

  lemma FirePosts(s: Uv, x: nat, acts: seq<Act>)
    ensures OnFire(s, x, acts).executed == s.executed
    ensures Ids(OnFire(s, x, acts).queue) == Ids(s.queue) + if CanFire(s, x) then PostedBy(acts) else []
  {
    if !CanFire(s, x) { return; }
    var s1 := Expire(s, x);
    assert s1.executed == s.executed && s1.queue == s.queue;
    hide Ids, PostedBy, Expire, RunActs, FinishOneShot;
    ActsPost(s1, acts);
    FinishKeepsPosts(RunActs(s1, acts), x);
  }

  lemma WakePosts(s: Uv)
    requires s.signal
    ensures OnWake(s).executed == s.executed + Ids(s.queue)
    ensures Ids(OnWake(s).queue) == PostedByAll(s.queue)
  {
    var s1 := s.(signal := false, queue := []);
    hide RunBatch, PostedByAll;
    BatchPosts(s1, s.queue);
    assert Ids([]) == [];
    hide Ids;
    assert [] + PostedByAll(s.queue) == PostedByAll(s.queue);
  }

  lemma StepPosts(s: Uv, e: Event)
    ensures Step(s, e).executed == s.executed + if e.Wake? && s.signal then Ids(s.queue) else []
    ensures Step(s, e).executed + Ids(Step(s, e).queue) == s.executed + Ids(s.queue) + Posted(s, e)
  {
    hide Perform, PostedBy, PostedByAll, Ids, CanFire, OnFire, OnClosed;
    match e
    case Do(a) =>
      PerformPosts(s, a);
      Assoc(s.executed, Ids(s.queue), PostedBy([a]));
    case Fire(x, acts) =>
      FirePosts(s, x, acts);
      Assoc(s.executed, Ids(s.queue), if CanFire(s, x) then PostedBy(acts) else []);
    case Closed(x) => ClosedKeepsPosts(s, x);
    case Wake =>
      if s.signal {
        WakePosts(s);
        hide OnWake;
      }
    case Elsewhere =>
  }

  /** Over every run, what has been executed and then what still waits is what was posted, in the order
      of the posts: nothing is lost, repeated or overtaken. */
  lemma {:induction false} PostedInOrder(s: Uv, es: seq<Event>)
    ensures Run(s, es).executed + Ids(Run(s, es).queue) == s.executed + Ids(s.queue) + AllPosted(s, es)
    decreases es
  {
    if es != [] {
      var t := Step(s, es[0]);
      StepPosts(s, es[0]);
      hide Step, Posted, Ids;
      PostedInOrder(t, es[1..]);
      Assoc(s.executed + Ids(s.queue), Posted(s, es[0]), AllPosted(t, es[1..]));
    }
  }

  /** One post and one wakeup of a started scheduler: everything that waited runs, and then the callback. */
  lemma PostThenWake(s: Uv, cb: Callback)
    requires s.started && Inited(s)
    ensures Step(Step(s, Do(Post(cb))), Wake).executed == s.executed + Ids(s.queue) + [cb.id]
  {
    StepPosts(Step(s, Do(Post(cb))), Wake);
    IdsAppend(s.queue, [cb]);
    assert Ids([cb]) == [cb.id];
  }

  // ---- no wakeup is lost ----

  ghost predicate Inited(s: Uv) {
    s.asyncInited <==> s.started
  }

  /** What waits in a started scheduler will be woken for. */
  ghost predicate Signalled(s: Uv) {
    s.started && s.queue != [] ==> s.signal
  }

  /** A start() that takes effect finds an empty queue. */
  ghost predicate OpensEmpty(s: Uv, a: Act) {
    a.Start? && !s.started ==> s.queue == []
  }

  ghost predicate ActsOpenEmpty(s: Uv, acts: seq<Act>)
    decreases acts
  {
    acts == [] || (OpensEmpty(s, acts[0]) && ActsOpenEmpty(Perform(s, acts[0]), acts[1..]))
  }

  ghost predicate BatchOpensEmpty(s: Uv, batch: seq<Callback>)
    decreases batch
  {
    batch == [] ||
    var s1 := s.(executed := s.executed + [batch[0].id]);
    ActsOpenEmpty(s1, batch[0].acts) && BatchOpensEmpty(RunActs(s1, batch[0].acts), batch[1..])
  }

  ghost predicate StepOpensEmpty(s: Uv, e: Event) {
    match e
    case Do(a) => OpensEmpty(s, a)
    case Fire(x, acts) => CanFire(s, x) ==> ActsOpenEmpty(Expire(s, x), acts)
    case Wake => s.signal ==> BatchOpensEmpty(s.(signal := false, queue := []), s.queue)
    case _ => true
  }

  ghost predicate RunOpensEmpty(s: Uv, es: seq<Event>)
    decreases es
  {
    es == [] || (StepOpensEmpty(s, es[0]) && RunOpensEmpty(Step(s, es[0]), es[1..]))
  }

  /** The premise on start() is exact for one call. */
  lemma PerformSignals(s: Uv, a: Act)
    requires Inited(s) && Signalled(s)
    ensures Inited(Perform(s, a)) && (Signalled(Perform(s, a)) <==> OpensEmpty(s, a))
  {
  }

  lemma {:induction false} ActsSignal(s: Uv, acts: seq<Act>)
    requires Inited(s) && Signalled(s) && ActsOpenEmpty(s, acts)
    ensures Inited(RunActs(s, acts)) && Signalled(RunActs(s, acts))
    decreases acts
  {
    if acts != [] {
      PerformSignals(s, acts[0]);
      hide Perform, Inited, Signalled;
      ActsSignal(Perform(s, acts[0]), acts[1..]);
    }
  }

  lemma {:induction false} BatchSignals(s: Uv, batch: seq<Callback>)
    requires Inited(s) && Signalled(s) && BatchOpensEmpty(s, batch)
    ensures Inited(RunBatch(s, batch)) && Signalled(RunBatch(s, batch))
    decreases batch
  {
    if batch != [] {
      var s1 := s.(executed := s.executed + [batch[0].id]);
      assert Inited(s1) && Signalled(s1);
      hide RunActs, ActsOpenEmpty, Inited, Signalled;
      ActsSignal(s1, batch[0].acts);
      BatchSignals(RunActs(s1, batch[0].acts), batch[1..]);
    }
  }

  lemma StepSignals(s: Uv, e: Event)
    requires Inited(s) && Signalled(s) && StepOpensEmpty(s, e)
    ensures Inited(Step(s, e)) && Signalled(Step(s, e))
  {
    hide Perform, RunActs, RunBatch, ActsOpenEmpty, BatchOpensEmpty, OpensEmpty;
    match e
    case Do(a) => PerformSignals(s, a);
    case Fire(x, acts) => if CanFire(s, x) { ActsSignal(Expire(s, x), acts); }
    case Wake => if s.signal { BatchSignals(s.(signal := false, queue := []), s.queue); }
    case _ =>
  }

  /** As long as every start() finds an empty queue, whatever else the program, the timers and the posted
      callbacks do: a callback that waits in a started scheduler has its wakeup pending. */
  lemma {:induction false} WaitingIsSignalled(s: Uv, es: seq<Event>)
    requires Inited(s) && Signalled(s) && RunOpensEmpty(s, es)
    ensures Inited(Run(s, es)) && Signalled(Run(s, es))
    decreases es
  {
    if es != [] {
      StepSignals(s, es[0]);
      hide Step, StepOpensEmpty, Inited, Signalled;
      WaitingIsSignalled(Step(s, es[0]), es[1..]);
    }
  }

  /** Hence a started scheduler without a pending wakeup has executed everything ever posted. */
  lemma SettledMeansDone(es: seq<Event>)
    requires RunOpensEmpty(Init(), es)
    requires var t := Run(Init(), es); t.started && !t.signal
    ensures Run(Init(), es).executed == AllPosted(Init(), es)
  {
    WaitingIsSignalled(Init(), es);
    PostedInOrder(Init(), es);
    hide Run, AllPosted;
    assert [] + [] + AllPosted(Init(), es) == AllPosted(Init(), es);
    assert Ids(Run(Init(), es).queue) == [];
  }

  // ---- the scheduler is one of the schedules of the post queue ----

  /** The post queue of the scheduler, as the protocol between producers and consumer sees it. */
  function View(s: Uv, consumer: P.Consumer): P.Q {
    var batch := if consumer.Draining? then consumer.batch else [];
    P.Q(s.asyncInited, Ids(s.queue), s.signal, {}, consumer, s.executed + batch + Ids(s.queue), s.executed)
  }

  function ActMoves(s: Uv, a: Act, thread: nat): seq<P.Step> {
    match a
    case Post(cb) => [P.Push(thread, cb.id), P.Send(thread)]
    case Start => if s.started then [] else [P.Open]
    case Stop => if s.started then [P.Close] else []
    case _ => []
  }

  function ActsMoves(s: Uv, acts: seq<Act>, thread: nat): seq<P.Step>
    decreases acts
  {
    if acts == [] then [] else ActMoves(s, acts[0], thread) + ActsMoves(Perform(s, acts[0]), acts[1..], thread)
  }

  function BatchMoves(s: Uv, batch: seq<Callback>): seq<P.Step>
    decreases batch
  {
    if batch == [] then [P.Finish]
    else
      var s1 := s.(executed := s.executed + [batch[0].id]);
      [P.Execute(false)] + (ActsMoves(s1, batch[0].acts, 0) + BatchMoves(RunActs(s1, batch[0].acts), batch[1..]))
  }

  /** The steps of the protocol that one event of the scheduler takes.  Thread 0 is the consumer while it
      runs a batch; calls made at any other time are those of thread 1. */
  function Moves(s: Uv, e: Event): seq<P.Step> {
    match e
    case Do(a) => ActMoves(s, a, 1)
    case Fire(x, acts) => if CanFire(s, x) then ActsMoves(Expire(s, x), acts, 1) else []
    case Wake =>
      if s.signal then [P.Wake] + ([P.Swap] + BatchMoves(s.(signal := false, queue := []), s.queue)) else []
    case _ => []
  }

  function AllMoves(s: Uv, es: seq<Event>): seq<P.Step>
    decreases es
  {
    if es == [] then [] else Moves(s, es[0]) + AllMoves(Step(s, es[0]), es[1..])
  }

  lemma {:induction false} MovesAppend(q: P.Q, a: seq<P.Step>, b: seq<P.Step>)
    ensures P.Run(q, a + b) == P.Run(P.Run(q, a), b)
    decreases a
  {
    if a == [] {
      assert a + b == b;
    } else {
      assert (a + b)[1..] == a[1..] + b;
      MovesAppend(P.Next(q, a[0]), a[1..], b);
    }
  }

  lemma OneMove(q: P.Q, m: P.Step, ms: seq<P.Step>)
    ensures P.Run(q, [m] + ms) == P.Run(P.Next(q, m), ms)
    ensures P.Run(q, [m]) == P.Next(q, m)
  {
    assert ([m] + ms)[1..] == ms;
    assert P.Run(q, [m]) == P.Run(P.Next(q, m), []);
  }

  lemma TwoMoves(q: P.Q, m: P.Step, n: P.Step)
    ensures P.Run(q, [m, n]) == P.Next(P.Next(q, m), n)
  {
    OneMove(q, m, [n]);
    OneMove(P.Next(q, m), n, []);
    assert [m] + [n] == [m, n];
  }

  lemma PostMoves(s: Uv, cb: Callback, consumer: P.Consumer, thread: nat)
    requires thread == 0 ==> consumer.Draining?
    ensures View(Perform(s, Post(cb)), consumer) == P.Run(View(s, consumer), [P.Push(thread, cb.id), P.Send(thread)])
  {
    hide Remove, Register, StartAfter, OnStop, Ids, P.Run;
    var q, t := View(s, consumer), Perform(s, Post(cb));
    var batch := if consumer.Draining? then consumer.batch else [];
    PostQueued(s.queue, cb);
    Assoc(s.executed + batch, Ids(s.queue), [cb.id]);
    TwoMoves(q, P.Push(thread, cb.id), P.Send(thread));
    var none: set<nat> := {};
    assert none + {thread} - {thread} == none;
  }

  lemma PostQueued(queue: seq<Callback>, cb: Callback)
    ensures Ids(queue + [cb]) == Ids(queue) + [cb.id]
  {
    IdsAppend(queue, [cb]);
    assert Ids([cb]) == [cb.id];
  }

  lemma StopKeepsPosts(s: Uv)
    ensures OnStop(s) == if s.started then CloseAll(s).(started := false, asyncInited := false, signal := false) else s
    ensures var t := CloseAll(s);
            && t.executed == s.executed && t.queue == s.queue
  {
  }

  lemma PerformMoves(s: Uv, a: Act, consumer: P.Consumer, thread: nat)
    requires Inited(s) && (thread == 0 ==> consumer.Draining?)
    ensures Inited(Perform(s, a))
    ensures View(Perform(s, a), consumer) == P.Run(View(s, consumer), ActMoves(s, a, thread))
  {
    hide Ids, Remove, Register, StartAfter;
    match a
    case Post(cb) =>
      PostMoves(s, cb, consumer, thread);
      hide View;
    case Start => OneMove(View(s, consumer), P.Open, []);
    case Stop =>
      StopKeepsPosts(s);
      hide OnStop;
      OneMove(View(s, consumer), P.Close, []);
    case _ =>
      TimersKeepPosts(s, a);
      hide Perform;
  }

  lemma {:induction false} ActsMove(s: Uv, acts: seq<Act>, consumer: P.Consumer, thread: nat)
    requires Inited(s) && (thread == 0 ==> consumer.Draining?)
    ensures Inited(RunActs(s, acts))
    ensures View(RunActs(s, acts), consumer) == P.Run(View(s, consumer), ActsMoves(s, acts, thread))
    decreases acts
  {
    if acts != [] {
      PerformMoves(s, acts[0], consumer, thread);
      hide Perform, View, Inited, ActMoves;
      ActsMove(Perform(s, acts[0]), acts[1..], consumer, thread);
      MovesAppend(View(s, consumer), ActMoves(s, acts[0], thread), ActsMoves(Perform(s, acts[0]), acts[1..], thread));
    }
  }

  lemma ExecuteMoves(s: Uv, id: nat, rest: seq<nat>)
    ensures View(s.(executed := s.executed + [id]), P.Draining(rest))
         == P.Next(View(s, P.Draining([id] + rest)), P.Execute(false))
  {
    hide Ids;
    assert s.executed + [id] + rest + Ids(s.queue) == s.executed + ([id] + rest) + Ids(s.queue);
  }

  lemma {:induction false} BatchMove(s: Uv, batch: seq<Callback>)
    requires Inited(s)
    ensures Inited(RunBatch(s, batch))
    ensures View(RunBatch(s, batch), P.Idle) == P.Run(View(s, P.Draining(Ids(batch))), BatchMoves(s, batch))
    decreases batch
  {
    var q := View(s, P.Draining(Ids(batch)));
    if batch == [] {
      OneMove(q, P.Finish, []);
    } else {
      var s1 := s.(executed := s.executed + [batch[0].id]);
      var u := RunActs(s1, batch[0].acts);
      var rest := P.Draining(Ids(batch[1..]));
      ExecuteMoves(s, batch[0].id, Ids(batch[1..]));
      hide RunActs, View, ActsMoves;
      ActsMove(s1, batch[0].acts, rest, 0);
      hide Inited;
      OneMove(q, P.Execute(false), ActsMoves(s1, batch[0].acts, 0) + BatchMoves(u, batch[1..]));
      MovesAppend(View(s1, rest), ActsMoves(s1, batch[0].acts, 0), BatchMoves(u, batch[1..]));
      BatchMove(u, batch[1..]);
    }
  }

  lemma WakeMoves(s: Uv)
    requires Inited(s)
    ensures Inited(OnWake(s)) && View(OnWake(s), P.Idle) == P.Run(View(s, P.Idle), Moves(s, Wake))
  {
    if !s.signal { return; }
    var s1 := s.(signal := false, queue := []);
    var q := View(s, P.Idle);
    assert P.Next(P.Next(q, P.Wake), P.Swap) == View(s1, P.Draining(Ids(s.queue)));
    hide Ids, View, RunBatch, BatchMoves;
    BatchMove(s1, s.queue);
    OneMove(q, P.Wake, [P.Swap] + BatchMoves(s1, s.queue));
    OneMove(P.Next(q, P.Wake), P.Swap, BatchMoves(s1, s.queue));
  }

  lemma StepMoves(s: Uv, e: Event)
    requires Inited(s)
    ensures Inited(Step(s, e)) && View(Step(s, e), P.Idle) == P.Run(View(s, P.Idle), Moves(s, e))
  {
    hide Perform, RunActs, OnWake, OnClosed, FinishOneShot, ActMoves, ActsMoves, BatchMoves, Ids;
    match e
    case Do(a) => PerformMoves(s, a, P.Idle, 1);
    case Fire(x, acts) =>
      if CanFire(s, x) {
        ActsMove(Expire(s, x), acts, P.Idle, 1);
        FinishKeepsPosts(RunActs(Expire(s, x), acts), x);
      }
    case Closed(x) => ClosedKeepsPosts(s, x);
    case Wake => WakeMoves(s);
    case _ =>
  }

  /** Every run of the scheduler is a schedule of the protocol in PostQueue, so the results about all of
      its schedules hold of the scheduler. */
  lemma {:induction false} RunIsSchedule(s: Uv, es: seq<Event>)
    requires Inited(s)
    ensures Inited(Run(s, es)) && View(Run(s, es), P.Idle) == P.Run(View(s, P.Idle), AllMoves(s, es))
    decreases es
  {
    if es != [] {
      StepMoves(s, es[0]);
      hide Step, View, Moves, Inited;
      RunIsSchedule(Step(s, es[0]), es[1..]);
      MovesAppend(View(s, P.Idle), Moves(s, es[0]), AllMoves(Step(s, es[0]), es[1..]));
    }
  }
}
