/**
  What every step of the browser manager keeps.  Each part speaks only of the records it needs, so
  that a transition leaving those alone keeps it for free.
 */
module CdpInvariants {
  import opened CdpModel

  // ---- the command multiplexer ----

  /** How many handlers have been run for id i, on either side. */
  function Answers(m: Mux, i: int): nat {
    m.answered[(i, true)] + m.answered[(i, false)]
  }

  /** pending_ holds exactly the issued ids that are not answered, each with its own handler. */
  ghost predicate PendingOk(m: Mux) {
    && 0 <= m.cmdId
    && (forall i :: i in m.issued <==> 0 <= i < m.cmdId)
    && (forall i :: i in m.pending ==> i in m.issued && m.pending[i] == m.issued[i])
    && (forall i :: i in m.pending <==> i in m.issued && Answers(m, i) == 0)
    && (forall i :: Answers(m, i) <= if i in m.issued then 1 else 0)
  }

  ghost predicate Increasing(ms: seq<Msg>) {
    forall i, j :: 0 <= i < j < |ms| ==> ms[i].id < ms[j].id
  }

  /** Every issued id was sent, is queued or was dropped, and what is sent or queued is in order. */
  ghost predicate WireOk(m: Mux) {
    && Increasing(m.wire + m.queue)
    && (forall i :: i in Ids(m.wire + m.queue) || i in m.dropped <==> 0 <= i < m.cmdId)
    && Ids(m.wire + m.queue) !! m.dropped
    && (m.wsReady ==> m.queue == [])
  }

  // ---- get_context ----

  predicate HasCall(h: Handler) {
    h.Create? || h.Attach? || h.AddScript?
  }

  /** Call c is carried by the unanswered command it issued last. */
  ghost predicate InFlight(pending: map<int, Handler>, callCmd: map<nat, int>, c: nat) {
    && c in callCmd && callCmd[c] in pending
    && HasCall(pending[callCmd[c]]) && pending[callCmd[c]].call == c
  }

  /** An entry of pending_ that carries a call is the latest command of that call. */
  ghost predicate CarriesOk(pending: map<int, Handler>, b: Book) {
    forall i :: i in pending && HasCall(pending[i]) ==>
      && pending[i].call < |b.calls| && b.calls[pending[i].call] == pending[i].platform
      && pending[i].call in b.callCmd && b.callCmd[pending[i].call] == i
  }

  function Ends(b: Book, c: nat): nat {
    b.got[c] + b.failed[c] + b.silent[c]
  }

  /** A call is in flight or it has ended, once and on one side. */
  ghost predicate EndsOk(pending: map<int, Handler>, b: Book) {
    forall c: nat :: Ends(b, c) + (if InFlight(pending, b.callCmd, c) then 1 else 0) == if c < |b.calls| then 1 else 0
  }

  // ---- contexts ----

  /** An allocated context is live or it was freed once. */
  ghost predicate FreedOk(p: Pool) {
    forall x: nat :: p.freed[x] + (if x in p.heap then 1 else 0) == if x < p.nextPtr then 1 else 0
  }

  ghost predicate CacheOk(p: Pool) {
    forall q :: q in p.contexts ==> p.contexts[q] in p.heap && p.heap[p.contexts[q]].platform == q
  }

  /** Context x is carried by an unanswered add-script command. */
  ghost predicate Carried(pending: map<int, Handler>, ctxCmd: map<nat, int>, x: nat) {
    && x in ctxCmd && ctxCmd[x] in pending
    && pending[ctxCmd[x]].AddScript? && pending[ctxCmd[x]].ctx == x
  }

  ghost predicate ScriptsOk(pending: map<int, Handler>, p: Pool) {
    forall i :: i in pending && pending[i].AddScript? ==>
      && pending[i].ctx in p.heap && p.heap[pending[i].ctx].platform == pending[i].platform
      && pending[i].ctx in p.ctxCmd && p.ctxCmd[pending[i].ctx] == i
  }

  /** A live context has exactly one owner: the cache or an add-script entry. */
  ghost predicate OwnerOk(pending: map<int, Handler>, p: Pool) {
    forall x: nat :: x in p.heap ==> Usable(p, x) != Carried(pending, p.ctxCmd, x)
  }

  // ---- wait_for_selector ----

  /** The evaluate that wait w issued last is unanswered. */
  ghost predicate Outstanding(pending: map<int, Handler>, waitCmd: map<nat, int>, w: nat) {
    w in waitCmd && waitCmd[w] in pending && pending[waitCmd[w]] == Poll(w)
  }

  ghost predicate PollsCarried(pending: map<int, Handler>, waitCmd: map<nat, int>) {
    forall i :: i in pending && pending[i].Poll? ==>
      pending[i].wait in waitCmd && waitCmd[pending[i].wait] == i
  }

  function Done(p: Poller, w: nat): nat {
    if w < |p.waits| && p.waits[w].done then 1 else 0
  }

  /** One token per wait: a posted check, an outstanding evaluate, or done. */
  ghost predicate TokenOk(pending: map<int, Handler>, p: Poller) {
    forall w: nat :: p.posted[w] + (if Outstanding(pending, p.waitCmd, w) then 1 else 0) + Done(p, w)
                == if w < |p.waits| then 1 else 0
  }

  function Outcomes(p: Poller, w: nat): nat {
    p.found[w] + p.timedOut[w]
  }

  ghost predicate OutcomeOk(p: Poller, pool: Pool, w: nat) {
    && Outcomes(p, w) <= Done(p, w)
    && (w < |p.waits| ==> p.waits[w].ctx < pool.nextPtr)
    && (Done(p, w) == 1 && Outcomes(p, w) == 0 ==>
          p.waits[w].ctx !in pool.heap || pool.heap[p.waits[w].ctx].closed)
  }

  /** A wait has at most one outcome, only when done, and lacks one then only if its context was closed. */
  ghost predicate OutcomesOk(p: Poller, pool: Pool) {
    forall w: nat :: OutcomeOk(p, pool, w)
  }

  /** The evaluates of one wait: none at or after the deadline, and their times increase unless
      the clock stood still between two of them. */
  ghost predicate PollTimes(t: Wait, unpolled: bool, ts: seq<nat>, clock: nat, stalled: bool) {
    && t.start <= clock
    && (unpolled ==> ts == [])
    && (forall k :: 0 <= k < |ts| ==> t.start <= ts[k] <= clock && ts[k] - t.start < Int64(t.timeout))
    && (!stalled ==> forall j, k :: 0 <= j < k < |ts| ==> ts[j] < ts[k])
  }

  ghost predicate PollsOk(p: Poller, clock: nat) {
    && |p.polls| == |p.waits|
    && forall w :: 0 <= w < |p.waits| ==> PollTimes(p.waits[w], p.posted[w] > 0, p.polls[w], clock, p.stalled)
  }

  // ---- deferred callbacks ----

  /** The guards of a live context are those of the callbacks it deferred, and a guard is set
      exactly while the context that owns it is live. */
  ghost predicate GuardsOk(p: Pool, t: Timers) {
    && |t.alive| == |t.owner|
    && (forall g :: 0 <= g < |t.owner| ==> t.owner[g] < p.nextPtr && (t.alive[g] <==> t.owner[g] in p.heap))
    && (forall x: nat, g: nat {:trigger g in p.heap[x].guards} :: x in p.heap && g in p.heap[x].guards ==> g < |t.owner| && t.owner[g] == x)
    && (forall g :: 0 <= g < |t.owner| && t.owner[g] in p.heap ==> g in p.heap[t.owner[g]].guards)
  }

  ghost predicate RanOk(t: Timers) {
    && (forall g: nat :: g in t.armed ==> g < |t.owner|)
    && (forall g: nat :: t.ran[g] <= if g < |t.owner| && g !in t.armed then 1 else 0)
  }

  ghost predicate Inv(s: Mgr) {
    && PendingOk(s.mux) && WireOk(s.mux)
    && CarriesOk(s.mux.pending, s.book) && EndsOk(s.mux.pending, s.book)
    && FreedOk(s.pool) && CacheOk(s.pool) && ScriptsOk(s.mux.pending, s.pool) && OwnerOk(s.mux.pending, s.pool)
    && PollsCarried(s.mux.pending, s.poller.waitCmd) && TokenOk(s.mux.pending, s.poller)
    && OutcomesOk(s.poller, s.pool) && PollsOk(s.poller, s.clock)
    && GuardsOk(s.pool, s.timers) && RanOk(s.timers)
  }
}
