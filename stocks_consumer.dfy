/** The stocks consumer (src/shared/watcher/consumers/stocks_consumer.ts): it keeps no
    dictionaries and its tick does nothing; every per-minute aggregate is matched at once,
    its low against `alerts_stocks_price_over:<sym>` and its high against
    `alerts_stocks_price_under:<sym>`. */
module StocksConsumer {
  import opened Collections
  import opened Store
  import opened Consumer

  /** The two range queries of one aggregate of `sym` with low `l` and high `h`. */
  function AggregateQueries(sym: string, l: int, h: int): seq<Query>
  {
    [Query(OverKey(Stocks, sym), l), Query(UnderKey(Stocks, sym), h)]
  }

  /** The ZREMs and the triggers of an aggregate are those of its over query followed by
      those of its under query. */
  lemma AggregateSplit(z: ZSets, sym: string, l: int, h: int)
    ensures Removals(z, AggregateQueries(sym, l, h))
            == QueryRemovals(z, Query(OverKey(Stocks, sym), l)) + QueryRemovals(z, Query(UnderKey(Stocks, sym), h))
    ensures Bag(z, AggregateQueries(sym, l, h))
            == multiset(QueryTriggers(z, Query(OverKey(Stocks, sym), l)))
             + multiset(QueryTriggers(z, Query(UnderKey(Stocks, sym), h)))
  {
    var qs := AggregateQueries(sym, l, h);
    assert qs[..|qs| - 1] == [qs[0]];
    assert [qs[0]][..0] == [];
    assert Bag(z, [qs[0]]) == multiset(QueryTriggers(z, qs[0]));
    assert Removals(z, [qs[0]]) == QueryRemovals(z, qs[0]);
  }

  /** What one aggregate does to the store: the over-index of `sym` loses exactly its ids
      scored in [0, l], the under-index exactly those in [0, h], every other index stays, and
      each matched id is triggered once per index that matched it, with that index's bound. */
  lemma AggregateEffect(z: ZSets, records: map<string, Alert>, sym: string, l: int, h: int, ts: seq<TriggerSet>, now: int)
    requires multiset(ts) == Bag(z, AggregateQueries(sym, l, h))
    ensures forall id ::
              id in Members(AfterTick(z, records, AggregateQueries(sym, l, h), ts, now), OverKey(Stocks, sym))
              <==> id in Members(z, OverKey(Stocks, sym)) && !(0 <= Members(z, OverKey(Stocks, sym))[id] <= l)
    ensures forall id ::
              id in Members(AfterTick(z, records, AggregateQueries(sym, l, h), ts, now), UnderKey(Stocks, sym))
              <==> id in Members(z, UnderKey(Stocks, sym)) && !(0 <= Members(z, UnderKey(Stocks, sym))[id] <= h)
    ensures forall k | k != FiredAlerts && k != OverKey(Stocks, sym) && k != UnderKey(Stocks, sym) ::
              Members(AfterTick(z, records, AggregateQueries(sym, l, h), ts, now), k) == Members(z, k)
    ensures forall id ::
              id in Members(AfterTick(z, records, AggregateQueries(sym, l, h), ts, now), FiredAlerts)
              <==> id in Members(z, FiredAlerts)
                   || ((id in InRange(Members(z, OverKey(Stocks, sym)), 0, l)
                        || id in InRange(Members(z, UnderKey(Stocks, sym)), 0, h))
                       && Schedules(records, id))
    ensures forall id, v ::
              multiset(ts)[TriggerSet(id, v)]
              == (if v == l && id in InRange(Members(z, OverKey(Stocks, sym)), 0, l) then 1 else 0)
               + (if v == h && id in InRange(Members(z, UnderKey(Stocks, sym)), 0, h) then 1 else 0)
  {
    var qs := AggregateQueries(sym, l, h);
    TickPrunesQueriedKey(z, records, qs, ts, now, qs[0]);
    TickPrunesQueriedKey(z, records, qs, ts, now, qs[1]);
    forall k | k != FiredAlerts && k != OverKey(Stocks, sym) && k != UnderKey(Stocks, sym)
      ensures Members(AfterTick(z, records, qs, ts, now), k) == Members(z, k)
    {
      TickKeepsOtherKeys(z, records, qs, ts, now, k);
    }
    AggregateSplit(z, sym, l, h);
    TickFires(z, records, qs, ts, now);
    forall id ensures MatchedBy(z, qs, id) <==> id in Matched(z, qs[0]) || id in Matched(z, qs[1]) {
      if id in Matched(z, qs[0]) { assert qs[0] in qs; }
      if id in Matched(z, qs[1]) { assert qs[1] in qs; }
    }
  }

  /** Replaying an aggregate with no re-arm in between triggers nothing. */
  lemma AggregateReplaySilent(z: ZSets, records: map<string, Alert>, sym: string, l: int, h: int, ts: seq<TriggerSet>, now: int)
    ensures Bag(AfterTick(z, records, AggregateQueries(sym, l, h), ts, now), AggregateQueries(sym, l, h)) == multiset{}
    ensures Removals(AfterTick(z, records, AggregateQueries(sym, l, h), ts, now), AggregateQueries(sym, l, h)) == {}
  {
    TickIdempotent(z, records, AggregateQueries(sym, l, h), ts, now);
  }

  class StocksConsumer {
    const store: Redis
    const sink: Firebase

    constructor (store: Redis, sink: Firebase)
      ensures this.store == store && this.sink == sink
    {
      this.store, this.sink := store, sink;
    }

    /** `nextTick()` has an empty body. */
    method NextTick()
      ensures unchanged(store, sink)
    {
    }

    /** `consumeAggregate(aggregate)` for an aggregate of `sym` with low `l` and high `h`:
        both queries, a ZREM queued and a trigger pushed per match, the batch executed, then
        the triggers run. `ts` is the order the triggers ran in. */
    method ConsumeAggregate(sym: string, l: int, h: int, now: int) returns (ghost ts: seq<TriggerSet>)
      modifies store`zsets, sink`written
      ensures multiset(ts) == Bag(old(store.zsets), AggregateQueries(sym, l, h))
      ensures store.zsets == AfterTick(old(store.zsets), store.records, AggregateQueries(sym, l, h), ts, now)
      ensures sink.written == old(sink.written) + Notes(store.records, ts, now)
    {
      ghost var qs := AggregateQueries(sym, l, h);
      var overDels, overTriggers := Collect(store, Query(OverKey(Stocks, sym), l));
      var underDels, underTriggers := Collect(store, Query(UnderKey(Stocks, sym), h));
      AggregateSplit(old(store.zsets), sym, l, h);
      var multiDelete, triggerPromises := overDels + underDels, overTriggers + underTriggers;
      assert Elems(multiDelete) == Elems(overDels) + Elems(underDels);
      store.ZRemAll(multiDelete);
      TriggerAll(store, sink, triggerPromises, now);
      ts := triggerPromises;
    }
  }
}
