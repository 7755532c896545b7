/**
  The post queue of the scheduler with any number of producer threads and one consumer.  Every step
  is what one thread does between two points where others may run: a producer appends under the
  lock, then signals; the consumer is woken, swaps the queue out under the lock, and runs the batch.
 */
module PostQueue {

  /** Where the consumer is: in the event loop, woken but not yet at the swap, or running a batch. */
  datatype Consumer = Idle | Woken | Draining(batch: seq<nat>)

  datatype Q = Q(
    open: bool,                // the async handle is initialised
    queue: seq<nat>,
    signal: bool,              // the coalescing flag of the async handle
    sending: set<nat>,         // threads between push and send; the consumer is thread 0
    consumer: Consumer,
    pushed: seq<nat>,          // history
    executed: seq<nat>)        // history

  datatype Step =
    | Push(thread: nat, callback: nat)
    | Send(thread: nat)
    | Wake
    | Swap
    | Execute(throws: bool)    // the callback at the head of the batch runs; a throw is swallowed
    | Finish
    | Open
    | Close

  predicate Enabled(s: Q, e: Step) {
    match e
    case Push(p, _) => p !in s.sending && (p == 0 ==> s.consumer.Draining?)
    case Send(p) => p in s.sending
    case Wake => s.consumer.Idle? && s.signal
    case Swap => s.consumer.Woken?
    case Execute(_) => s.consumer.Draining? && s.consumer.batch != [] && 0 !in s.sending
    case Finish => s.consumer == Draining([]) && 0 !in s.sending
    case Open => !s.open
    case Close => s.open
  }

  function Next(s: Q, e: Step): Q {
    if !Enabled(s, e) then s
    else
      match e
      case Push(p, cb) => s.(queue := s.queue + [cb], pushed := s.pushed + [cb], sending := s.sending + {p})
      case Send(p) => s.(sending := s.sending - {p}, signal := s.signal || s.open)
      case Wake => s.(signal := false, consumer := Woken)
      case Swap => s.(queue := [], consumer := Draining(s.queue))
      case Execute(_) => s.(executed := s.executed + [s.consumer.batch[0]], consumer := Draining(s.consumer.batch[1..]))
      case Finish => s.(consumer := Idle)
      case Open => s.(open := true, signal := false)
      case Close => s.(open := false, signal := false)
  }

  function Run(s: Q, es: seq<Step>): Q
    decreases es
  {
    if es == [] then s else Run(Next(s, es[0]), es[1..])
  }

  function Init(): Q {
    Q(false, [], false, {}, Idle, [], [])
  }

  // ---- first in, first out ----

  /** What was pushed and not executed, oldest first. */
  function Waiting(s: Q): seq<nat> {
    (if s.consumer.Draining? then s.consumer.batch else []) + s.queue
  }

  ghost predicate InOrder(s: Q) {
    s.executed + Waiting(s) == s.pushed
  }

  /** The swap-and-drain protocol refines a queue served one callback at a time: a push appends, an
      execution takes the oldest, and every other step leaves that queue as it is. */
  lemma RefinesSimpleQueue(s: Q, e: Step)
    ensures var t := Next(s, e);
            if Enabled(s, e) && e.Push? then Waiting(t) == Waiting(s) + [e.callback] && t.executed == s.executed
            else if Enabled(s, e) && e.Execute? then
              Waiting(s) != [] && Waiting(t) == Waiting(s)[1..] && t.executed == s.executed + [Waiting(s)[0]]
            else Waiting(t) == Waiting(s) && t.executed == s.executed
  {
    if e.Swap? && Enabled(s, e) {
      assert s.queue + [] == [] + s.queue;
    }
  }

  lemma StepInOrder(s: Q, e: Step)
    requires InOrder(s)
    ensures InOrder(Next(s, e))
  {
    RefinesSimpleQueue(s, e);
    if Enabled(s, e) && e.Execute? {
      assert Waiting(s) == [Waiting(s)[0]] + Waiting(s)[1..];
    }
  }

  /** In every interleaving of producers and consumer, restarts and throwing callbacks included, what
      has been executed is a prefix of the push order. */
  lemma GlobalFifo(s: Q, es: seq<Step>)
    requires InOrder(s)
    ensures InOrder(Run(s, es)) && Run(s, es).executed <= Run(s, es).pushed
    decreases es
  {
    if es != [] {
      StepInOrder(s, es[0]);
      GlobalFifo(Next(s, es[0]), es[1..]);
    }
  }

  // ---- no lost wakeup ----

  /** A callback in the queue is announced: by the signal, by a producer about to send it, or by the
      consumer being on its way to the swap. */
  ghost predicate Announced(s: Q) {
    s.queue != [] ==> s.signal || s.sending != {} || s.consumer.Woken?
  }

  lemma StepAnnounced(s: Q, e: Step)
    requires s.open && Announced(s) && !e.Close?
    ensures Next(s, e).open && Announced(Next(s, e))
  {
    if e.Push? && Enabled(s, e) {
      assert e.thread in Next(s, e).sending;
    }
  }

  ghost predicate SameSession(es: seq<Step>) {
    forall i :: 0 <= i < |es| ==> !es[i].Close?
  }

  /** Within a session every queued callback stays announced. */
  lemma NoLostWakeup(s: Q, es: seq<Step>)
    requires s.open && Announced(s) && SameSession(es)
    ensures Run(s, es).open && Announced(Run(s, es))
    decreases es
  {
    if es != [] {
      StepAnnounced(s, es[0]);
      NoLostWakeup(Next(s, es[0]), es[1..]);
    }
  }

  /** Hence, when no producer is between push and send, no signal is pending and the consumer is
      back in the event loop, everything pushed has been executed. */
  lemma QuietMeansDone(s: Q, es: seq<Step>)
    requires s.open && Announced(s) && InOrder(s) && SameSession(es)
    requires var t := Run(s, es); t.consumer.Idle? && !t.signal && t.sending == {}
    ensures Run(s, es).executed == Run(s, es).pushed
  {
    NoLostWakeup(s, es);
    GlobalFifo(s, es);
    assert Waiting(Run(s, es)) == [];
  }

  /** The premise on the start of a session is exact: opening it keeps every queued callback announced
      if and only if nothing was left in the queue, or someone is still about to announce it. */
  lemma SessionStart(s: Q)
    requires !s.open
    ensures Announced(Next(s, Open)) <==> s.queue == [] || s.sending != {} || s.consumer.Woken?
  {
  }

  /** Leftovers are real: a callback posted before stop() waits in the next session without a signal. */
  lemma LeftoverIsLost(cb: nat)
    ensures var s := Run(Init(), [Open, Push(1, cb), Send(1), Close, Open]);
            s.open && s.queue == [cb] && !s.signal && s.sending == {} && s.consumer.Idle?
  {
    var s1 := Next(Init(), Open);
    var s2 := Next(s1, Push(1, cb));
    var s3 := Next(s2, Send(1));
    var s4 := Next(s3, Close);
    assert Run(s4, [Open]) == Run(Next(s4, Open), []);
    assert Run(s3, [Close, Open]) == Run(s4, [Open]) by { assert [Close, Open][1..] == [Open]; }
    assert Run(s2, [Send(1), Close, Open]) == Run(s3, [Close, Open]) by { assert [Send(1), Close, Open][1..] == [Close, Open]; }
    assert Run(s1, [Push(1, cb), Send(1), Close, Open]) == Run(s2, [Send(1), Close, Open]) by {
      assert [Push(1, cb), Send(1), Close, Open][1..] == [Send(1), Close, Open];
    }
    assert [Open, Push(1, cb), Send(1), Close, Open][1..] == [Push(1, cb), Send(1), Close, Open];
  }

  // ---- one swap serves everything pushed before it ----

  /** What was pushed up to some point has been executed or is in the batch being run. */
  ghost predicate Serving(s: Q, pushed: seq<nat>) {
    pushed <= s.executed || (s.consumer.Draining? && pushed <= s.executed + s.consumer.batch)
  }

  lemma StepServing(s: Q, e: Step, pushed: seq<nat>)
    requires Serving(s, pushed)
    ensures Serving(Next(s, e), pushed)
  {
    if e.Execute? && Enabled(s, e) {
      var batch := s.consumer.batch;
      assert s.executed + batch == s.executed + [batch[0]] + batch[1..];
    }
    if s.consumer == Draining([]) {
      assert s.executed + [] == s.executed;
    }
  }

  lemma RunServing(s: Q, es: seq<Step>, pushed: seq<nat>)
    requires Serving(s, pushed)
    ensures Serving(Run(s, es), pushed)
    decreases es
  {
    if es != [] {
      StepServing(s, es[0], pushed);
      RunServing(Next(s, es[0]), es[1..], pushed);
    }
  }

  /** Whatever producers do meanwhile and whichever callbacks throw: when the consumer is at the end of
      the batch it swapped out, or past it, everything pushed before the swap has been executed. */
  lemma SwapServesAll(s: Q, es: seq<Step>)
    requires InOrder(s) && Enabled(s, Swap)
    requires var t := Run(Next(s, Swap), es); t.consumer.Draining? ==> t.consumer.batch == []
    ensures s.pushed <= Run(Next(s, Swap), es).executed
  {
    var t := Run(Next(s, Swap), es);
    StepInOrder(s, Swap);
    RunServing(Next(s, Swap), es, s.pushed);
    assert t.executed + [] == t.executed;
  }

  // ---- one wakeup is enough ----

  function Executes(n: nat): seq<Step> {
    if n == 0 then [Finish] else [Execute(false)] + Executes(n - 1)
  }

  lemma {:induction false} BatchCompletes(s: Q)
    requires InOrder(s) && s.consumer.Draining? && 0 !in s.sending && s.queue == []
    ensures var t := Run(s, Executes(|s.consumer.batch|));
            t.executed == t.pushed == s.pushed && t.consumer.Idle?
    decreases |s.consumer.batch|
  {
    var n := |s.consumer.batch|;
    if n == 0 {
      assert Executes(0)[1..] == [];
      assert Run(s, [Finish]) == Run(Next(s, Finish), []);
    } else {
      StepInOrder(s, Execute(false));
      assert Executes(n)[1..] == Executes(n - 1);
      BatchCompletes(Next(s, Execute(false)));
    }
  }

  /** One delivered signal, however many sends it coalesces, is enough for the consumer alone to execute
      everything pushed so far. */
  lemma OneWakeupServesAll(s: Q)
    requires InOrder(s) && s.consumer.Idle? && s.signal && 0 !in s.sending
    ensures var t := Run(s, [Wake, Swap] + Executes(|s.queue|));
            t.executed == t.pushed == s.pushed
  {
    var s1 := Next(s, Wake);
    var s2 := Next(s1, Swap);
    var rest := Executes(|s.queue|);
    assert ([Wake, Swap] + rest)[1..] == [Swap] + rest;
    assert ([Swap] + rest)[1..] == rest;
    StepInOrder(s, Wake);
    StepInOrder(s1, Swap);
    BatchCompletes(s2);
  }
}
