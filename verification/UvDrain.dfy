/** Draining the post queue in batches, against running one callback at a time. */
module UvDrain {
  import opened UvModel

  /** One callback is taken from the front of the queue and run. */
  function PopOne(s: Uv): Uv
    requires s.queue != []
  {
    RunActs(s.(queue := s.queue[1..], executed := s.executed + [s.queue[0].id]), s.queue[0].acts)
  }

  function PopMany(s: Uv, n: nat): Uv
    decreases n
  {
    if n == 0 || s.queue == [] then s else PopMany(PopOne(s), n - 1)
  }

  lemma CloseIgnoresQueue(s: Uv, x: nat, q: seq<Callback>)
    ensures CloseTimer(s.(queue := q), x) == CloseTimer(s, x).(queue := q)
  {
  }

  lemma RemoveIgnoresQueue(s: Uv, name: string, q: seq<Callback>)
    ensures Remove(s.(queue := q), name) == Remove(s, name).(queue := q)
  {
    if name in s.timers {
      CloseIgnoresQueue(s.(timers := s.timers - {name}), s.timers[name], q);
      hide CloseTimer;
    }
  }

  lemma RegisterIgnoresQueue(s: Uv, name: string, oneShot: bool, repeats: bool, q: seq<Callback>)
    ensures Register(s.(queue := q), name, oneShot, repeats) == Register(s, name, oneShot, repeats).(queue := q)
  {
  }

  /** Apart from post, no call looks at the queue. */
  lemma TimersIgnoreQueue(s: Uv, name: string, oneShot: bool, repeats: bool, q: seq<Callback>)
    ensures Remove(s.(queue := q), name) == Remove(s, name).(queue := q)
    ensures Register(s.(queue := q), name, oneShot, repeats) == Register(s, name, oneShot, repeats).(queue := q)
  {
    RemoveIgnoresQueue(s, name, q);
    RegisterIgnoresQueue(s, name, oneShot, repeats, q);
    hide Remove, Register;
  }

  lemma AfterIgnoresQueue(s: Uv, q: seq<Callback>)
    ensures StartAfter(s.(queue := q)) == StartAfter(s).(queue := q) && StartAfter(s).queue == s.queue
  {
    var s1 := s.(counter := s.counter + 1);
    var name := OneShotName(s.counter + 1);
    TimersIgnoreQueue(s1, name, true, false, q);
    TimersIgnoreQueue(Remove(s1, name), name, true, false, q);
    TimersKeepQueue(s1, name, true, false);
    TimersKeepQueue(Remove(s1, name), name, true, false);
    hide Remove, Register, OneShotName;
  }

  lemma TimersKeepQueue(s: Uv, name: string, oneShot: bool, repeats: bool)
    ensures Remove(s, name).queue == s.queue && Register(s, name, oneShot, repeats).queue == s.queue
  {
  }

  lemma StopIgnoresQueue(s: Uv, q: seq<Callback>)
    ensures OnStop(s.(queue := q)) == OnStop(s).(queue := q) && OnStop(s).queue == s.queue
  {
  }

  lemma PerformBehind(s: Uv, a: Act, front: seq<Callback>)
    ensures Perform(s.(queue := front + s.queue), a) == Perform(s, a).(queue := front + Perform(s, a).queue)
  {
    hide Remove, Register, StartAfter, OnStop;
    var q := front + s.queue;
    match a
    case AddJob(name, interval) =>
      TimersIgnoreQueue(s, name, false, interval > 0, q);
      TimersIgnoreQueue(Remove(s, name), name, false, interval > 0, q);
      TimersKeepQueue(s, name, false, interval > 0);
      TimersKeepQueue(Remove(s, name), name, false, interval > 0);
    case RemoveJob(name) =>
      TimersIgnoreQueue(s, name, false, false, q);
      TimersKeepQueue(s, name, false, false);
    case After => AfterIgnoresQueue(s, q);
    case Post(cb) => assert front + s.queue + [cb] == front + (s.queue + [cb]);
    case Start =>
    case Stop => StopIgnoresQueue(s, q);
  }

  /** What a callback posts goes behind whatever is still waiting in front. */
  lemma ActsBehind(s: Uv, acts: seq<Act>, front: seq<Callback>)
    ensures RunActs(s.(queue := front + s.queue), acts) == RunActs(s, acts).(queue := front + RunActs(s, acts).queue)
    decreases acts
  {
    if acts != [] {
      PerformBehind(s, acts[0], front);
      hide Perform;
      ActsBehind(Perform(s, acts[0]), acts[1..], front);
    }
  }

  lemma {:induction false} BatchIsOneByOne(s: Uv, batch: seq<Callback>)
    ensures RunBatch(s, batch) == PopMany(s.(queue := batch + s.queue), |batch|)
    decreases batch
  {
    if batch == [] {
      assert batch + s.queue == s.queue;
    } else {
      var s1 := s.(executed := s.executed + [batch[0].id]);
      var u := s.(queue := batch + s.queue);
      assert u.queue[1..] == batch[1..] + s.queue && u.queue[0] == batch[0];
      ActsBehind(s1, batch[0].acts, batch[1..]);
      assert PopOne(u) == RunActs(s1.(queue := batch[1..] + s1.queue), batch[0].acts);
      hide RunActs;
      BatchIsOneByOne(RunActs(s1, batch[0].acts), batch[1..]);
    }
  }

  /** Swapping the whole queue out and running the batch does exactly what taking the callbacks from
      the front one at a time would do, for as many callbacks as were queued, whatever they post,
      register, remove or stop. */
  lemma DrainRefinesQueue(s: Uv)
    requires s.signal
    ensures OnWake(s) == PopMany(s.(signal := false), |s.queue|)
  {
    var s1 := s.(signal := false, queue := []);
    BatchIsOneByOne(s1, s.queue);
    assert s.queue + [] == s.queue;
  }
}
