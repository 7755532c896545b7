/** Freeing contexts, starting and stopping preserve the invariant of the browser manager. */
module CdpFreeing {
  import opened CdpModel
  import opened CdpInvariants

  /** Freeing contexts clears exactly their guards. */
  lemma GuardsCleared(p: Pool, t: Timers, gone: set<nat>, p': Pool)
    requires GuardsOk(p, t) && p'.heap == p.heap - gone && p'.nextPtr == p.nextPtr
    ensures GuardsOk(p', ClearGuards(t, p.heap, gone))
  {
    var t' := ClearGuards(t, p.heap, gone);
    forall g | 0 <= g < |t.owner| ensures t'.alive[g] <==> t.owner[g] in p'.heap {
      if t.alive[g] {
        assert g in p.heap[t.owner[g]].guards;
      }
    }
  }

  lemma OutcomesFreed(w: Poller, p: Pool, gone: set<nat>, p': Pool)
    requires OutcomesOk(w, p) && p'.heap == p.heap - gone && p'.nextPtr == p.nextPtr
    ensures OutcomesOk(w, p')
  {
    forall v: nat ensures OutcomeOk(w, p', v) {
      assert OutcomeOk(w, p, v);
    }
  }

  /** The cache gives up the context stored under q. */
  lemma PoolUncached(pending: map<int, Handler>, p: Pool, q: string, p': Pool)
    requires FreedOk(p) && CacheOk(p) && ScriptsOk(pending, p) && OwnerOk(pending, p) && q in p.contexts
    requires p' == p.(contexts := p.contexts - {q}, heap := p.heap - {p.contexts[q]}, freed := p.freed + multiset{p.contexts[q]})
    ensures FreedOk(p') && CacheOk(p') && ScriptsOk(pending, p') && OwnerOk(pending, p')
  {
    var x := p.contexts[q];
    assert Usable(p, x) && !Carried(pending, p.ctxCmd, x);
    forall y: nat | y != x && y in p.heap ensures Usable(p', y) <==> Usable(p, y) {}
  }

  lemma RanCleared(t: Timers, heap: map<nat, Ctx>, gone: set<nat>)
    requires RanOk(t)
    ensures RanOk(ClearGuards(t, heap, gone))
  {
  }

  lemma RemoveContextInv(s: Mgr, q: string)
    requires Inv(s)
    ensures Inv(RemoveContext(s, q))
  {
    hide CarriesOk, EndsOk, WireOk, PendingOk, ScriptsOk, OwnerOk, TokenOk, PollsCarried, FreedOk, CacheOk,
         OutcomesOk, PollsOk, GuardsOk, ClearGuards;
    if q in s.pool.contexts {
      var t := RemoveContext(s, q);
      var x := s.pool.contexts[q];
      PoolUncached(s.mux.pending, s.pool, q, t.pool);
      GuardsCleared(s.pool, s.timers, {x}, t.pool);
      OutcomesFreed(s.poller, s.pool, {x}, t.pool);
      RanCleared(s.timers, s.pool.heap, {x});
    }
  }

  lemma IdsSplit(a: seq<Msg>, b: seq<Msg>)
    ensures Ids(a + b) == Ids(a) + Ids(b)
  {
    forall i ensures i in Ids(a + b) <==> i in Ids(a) || i in Ids(b) {
      if i in Ids(a) {
        var k :| 0 <= k < |a| && a[k].id == i;
        assert (a + b)[k].id == i;
      }
      if i in Ids(b) {
        var k :| 0 <= k < |b| && b[k].id == i;
        assert (a + b)[|a| + k].id == i;
      }
    }
  }

  lemma ResetMux(m: Mux)
    requires PendingOk(m) && WireOk(m)
    ensures PendingOk(Reset(m)) && WireOk(Reset(m))
  {
    var m' := Reset(m);
    var all := m.wire + m.queue;
    assert m'.wire + m'.queue == m.wire;
    IdsSplit(m.wire, m.queue);
    forall j, k | 0 <= j < |m.wire| && 0 <= k < |m.queue| ensures m.wire[j].id != m.queue[k].id {
      assert all[j].id < all[|m.wire| + k].id;
    }
    forall i, j | 0 <= i < j < |m.wire| ensures m.wire[i].id < m.wire[j].id {
      assert all[i].id < all[j].id;
    }
    forall i ensures Answers(m', i) == Answers(m, i) {}
  }

  lemma CachedValues(p: Pool, x: nat)
    requires CacheOk(p)
    ensures x in p.contexts.Values <==> Usable(p, x)
  {
    if Usable(p, x) {
      assert p.heap[x].platform in p.contexts;
    }
  }

  lemma FreedCleared(p: Pool, p': Pool)
    requires FreedOk(p) && CacheOk(p)
    requires p'.heap == p.heap - p.contexts.Values && p'.freed == p.freed + multiset(p.contexts.Values)
    requires p'.nextPtr == p.nextPtr
    ensures FreedOk(p')
  {
    var gone := p.contexts.Values;
    forall x: nat ensures p'.freed[x] + (if x in p'.heap then 1 else 0) == if x < p.nextPtr then 1 else 0 {
      CachedValues(p, x);
    }
  }

  lemma EmptyCache(p: Pool)
    requires p.contexts == map[]
    ensures CacheOk(p) && forall x: nat :: !Usable(p, x)
  {
  }

  lemma CarriedScript(pending: map<int, Handler>, p: Pool, i: int)
    requires ScriptsOk(pending, p) && i in pending && pending[i].AddScript?
    ensures Carried(pending, p.ctxCmd, pending[i].ctx)
  {
  }

  /** contexts_.clear() frees exactly what the cache owned. */
  lemma PoolCleared(pending: map<int, Handler>, p: Pool, p': Pool)
    requires FreedOk(p) && CacheOk(p) && ScriptsOk(pending, p) && OwnerOk(pending, p)
    requires var gone := p.contexts.Values;
             p' == p.(contexts := map[], heap := p.heap - gone, freed := p.freed + multiset(gone))
    ensures FreedOk(p') && CacheOk(p') && ScriptsOk(pending, p') && OwnerOk(pending, p')
  {
    hide Carried, Usable, CacheOk, FreedOk;
    var gone := p.contexts.Values;
    FreedCleared(p, p');
    EmptyCache(p');
    forall x: nat ensures x in gone <==> Usable(p, x) { CachedValues(p, x); }
    forall i | i in pending && pending[i].AddScript? ensures pending[i].ctx in p'.heap {
      CarriedScript(pending, p, i);
    }
  }

  lemma Disarmed(p: Pool, t: Timers)
    requires GuardsOk(p, t) && RanOk(t)
    ensures GuardsOk(p, t.(armed := {})) && RanOk(t.(armed := {}))
  {
  }

  /** stop() frees exactly the contexts the cache owns, each once. */
  lemma StopFrees(p: Pool, x: nat)
    requires CacheOk(p)
    ensures multiset(p.contexts.Values)[x] == if Usable(p, x) then 1 else 0
  {
    CachedValues(p, x);
  }

  lemma OnStopInv(s: Mgr)
    requires Inv(s)
    ensures Inv(OnStop(s))
    ensures var t := OnStop(s);
            s.started ==>
              && t.pool.contexts == map[] && t.timers.armed == {} && !t.started
              && (forall x: nat :: t.pool.freed[x] == s.pool.freed[x] + if Usable(s.pool, x) then 1 else 0)
              && (forall x: nat :: x in t.pool.heap <==> x in s.pool.heap && !Usable(s.pool, x))
  {
    hide CarriesOk, EndsOk, WireOk, PendingOk, ScriptsOk, OwnerOk, TokenOk, PollsCarried, FreedOk, CacheOk,
         OutcomesOk, PollsOk, GuardsOk, RanOk, ClearGuards;
    if s.started {
      var t := OnStop(s);
      var gone := s.pool.contexts.Values;
      PoolCleared(s.mux.pending, s.pool, t.pool);
      forall x: nat ensures t.pool.freed[x] == s.pool.freed[x] + if Usable(s.pool, x) then 1 else 0 { StopFrees(s.pool, x); }
      forall x: nat ensures x in t.pool.heap <==> x in s.pool.heap && !Usable(s.pool, x) { CachedValues(s.pool, x); }
      hide Usable;
      GuardsCleared(s.pool, s.timers, gone, t.pool);
      OutcomesFreed(s.poller, s.pool, gone, t.pool);
      RanCleared(s.timers, s.pool.heap, gone);
      Disarmed(t.pool, ClearGuards(s.timers, s.pool.heap, gone));
    }
  }
}
