/** The crypto consumer (src/shared/watcher/consumers/crypto_consumer.ts): every trade lowers
    the pair's entries in `list_price_low` and `list_price_high`; a tick matches both against
    the threshold indexes. As in the source, the "high" dictionary is also only ever lowered,
    so it always equals the low one, and a tick never clears either dictionary. */
module CryptoConsumer {
  import opened Collections
  import opened Store
  import opened Consumer
  import opened Trackers

  /** The queries of a crypto tick: `alerts_crypto_price_over:<pair>` up to the pair's low,
      for every pair of the low dictionary, then `alerts_crypto_price_under:<pair>` up to the
      pair's "high", for every pair of the high dictionary. */
  function CryptoQueries(low: map<string, int>, lowKeys: seq<string>, high: map<string, int>, highKeys: seq<string>): seq<Query>
    requires forall k :: k in lowKeys ==> k in low
    requires forall k :: k in highKeys ==> k in high
  {
    TrackerQueries(lowKeys, low, Crypto, "price_over") + TrackerQueries(highKeys, high, Crypto, "price_under")
  }

  /** A crypto tick prunes the tracked pairs' indexes: the over-index of every pair in `low`
      loses exactly the ids scored in [0, low], the under-index of every pair in `high`
      exactly those in [0, high]. */
  lemma CryptoTickPrunes(z: ZSets, records: map<string, Alert>, low: map<string, int>, lowKeys: seq<string>,
                         high: map<string, int>, highKeys: seq<string>, ts: seq<TriggerSet>, now: int)
    requires OrderedKeys(low, lowKeys) && OrderedKeys(high, highKeys)
    requires multiset(ts) == Bag(z, CryptoQueries(low, lowKeys, high, highKeys))
    ensures forall pair, id | pair in low ::
      id in Members(AfterTick(z, records, CryptoQueries(low, lowKeys, high, highKeys), ts, now), OverKey(Crypto, pair))
      <==> id in Members(z, OverKey(Crypto, pair)) && !(0 <= Members(z, OverKey(Crypto, pair))[id] <= low[pair])
    ensures forall pair, id | pair in high ::
      id in Members(AfterTick(z, records, CryptoQueries(low, lowKeys, high, highKeys), ts, now), UnderKey(Crypto, pair))
      <==> id in Members(z, UnderKey(Crypto, pair)) && !(0 <= Members(z, UnderKey(Crypto, pair))[id] <= high[pair])
  {
    var qs := CryptoQueries(low, lowKeys, high, highKeys);
    var overs := TrackerQueries(lowKeys, low, Crypto, "price_over");
    TrackerQueriesDistinct(lowKeys, low, highKeys, high, Crypto, "price_over", "price_under");
    forall pair | pair in low
      ensures forall id ::
                id in Members(AfterTick(z, records, qs, ts, now), OverKey(Crypto, pair))
                <==> id in Members(z, OverKey(Crypto, pair)) && !(0 <= Members(z, OverKey(Crypto, pair))[id] <= low[pair])
    {
      var i :| 0 <= i < |lowKeys| && lowKeys[i] == pair;
      assert qs[i] == Query(OverKey(Crypto, pair), low[pair]);
      TickPrunesQueriedKey(z, records, qs, ts, now, qs[i]);
    }
    forall pair | pair in high
      ensures forall id ::
                id in Members(AfterTick(z, records, qs, ts, now), UnderKey(Crypto, pair))
                <==> id in Members(z, UnderKey(Crypto, pair)) && !(0 <= Members(z, UnderKey(Crypto, pair))[id] <= high[pair])
    {
      var i :| 0 <= i < |highKeys| && highKeys[i] == pair;
      assert qs[|overs| + i] == Query(UnderKey(Crypto, pair), high[pair]);
      TickPrunesQueriedKey(z, records, qs, ts, now, qs[|overs| + i]);
    }
  }

  /** The keys a crypto tick queries are the tracked pairs' over- and under-indexes. */
  lemma CryptoQueriedKeys(low: map<string, int>, lowKeys: seq<string>, high: map<string, int>, highKeys: seq<string>, q: Query)
    requires OrderedKeys(low, lowKeys) && OrderedKeys(high, highKeys)
    requires q in CryptoQueries(low, lowKeys, high, highKeys)
    ensures (q.key.suffix == "price_over" && q.key.symbol in low) || (q.key.suffix == "price_under" && q.key.symbol in high)
    ensures q.key.AlertIndex? && q.key.market == Crypto
  {
    var qs := CryptoQueries(low, lowKeys, high, highKeys);
    var i :| 0 <= i < |qs| && qs[i] == q;
    if i < |lowKeys| {
      assert q.key == OverKey(Crypto, lowKeys[i]) && lowKeys[i] in low;
    } else {
      assert q.key == UnderKey(Crypto, highKeys[i - |lowKeys|]) && highKeys[i - |lowKeys|] in high;
    }
  }

  /** A crypto tick leaves every index but the tracked pairs' and `fired_alerts` alone. */
  lemma CryptoTickKeeps(z: ZSets, records: map<string, Alert>, low: map<string, int>, lowKeys: seq<string>,
                        high: map<string, int>, highKeys: seq<string>, ts: seq<TriggerSet>, now: int)
    requires OrderedKeys(low, lowKeys) && OrderedKeys(high, highKeys)
    ensures forall k | k != FiredAlerts && !(k.market == Crypto && k.suffix == "price_over" && k.symbol in low)
                                        && !(k.market == Crypto && k.suffix == "price_under" && k.symbol in high) ::
      Members(AfterTick(z, records, CryptoQueries(low, lowKeys, high, highKeys), ts, now), k) == Members(z, k)
  {
    var qs := CryptoQueries(low, lowKeys, high, highKeys);
    forall k | k != FiredAlerts && !(k.market == Crypto && k.suffix == "price_over" && k.symbol in low)
                                && !(k.market == Crypto && k.suffix == "price_under" && k.symbol in high)
      ensures Members(AfterTick(z, records, qs, ts, now), k) == Members(z, k)
    {
      forall q | q in qs ensures q.key != k {
        CryptoQueriedKeys(low, lowKeys, high, highKeys, q);
      }
      TickKeepsOtherKeys(z, records, qs, ts, now, k);
    }
  }

  /** A crypto tick sends to `fired_alerts` exactly the matched ids that have a re-arm. */
  lemma CryptoTickFires(z: ZSets, records: map<string, Alert>, low: map<string, int>, lowKeys: seq<string>,
                        high: map<string, int>, highKeys: seq<string>, ts: seq<TriggerSet>, now: int)
    requires OrderedKeys(low, lowKeys) && OrderedKeys(high, highKeys)
    requires multiset(ts) == Bag(z, CryptoQueries(low, lowKeys, high, highKeys))
    ensures forall id ::
              id in Members(AfterTick(z, records, CryptoQueries(low, lowKeys, high, highKeys), ts, now), FiredAlerts)
              <==> id in Members(z, FiredAlerts) || (MatchedBy(z, CryptoQueries(low, lowKeys, high, highKeys), id) && Schedules(records, id))
  {
    TrackerQueriesDistinct(lowKeys, low, highKeys, high, Crypto, "price_over", "price_under");
    TickFires(z, records, CryptoQueries(low, lowKeys, high, highKeys), ts, now);
  }

  class CryptoConsumer {
    const store: Redis
    const sink: Firebase
    /** `list_price_low` and its key order. */
    var low: map<string, int>
    var lowKeys: seq<string>
    /** `list_price_high` and its key order. */
    var high: map<string, int>
    var highKeys: seq<string>

    /** Both dictionaries list their keys in insertion order, and `list_price_high` is always
        `list_price_low`: both start empty and every trade applies the same update to both. */
    ghost predicate Valid()
      reads this
    {
      OrderedKeys(low, lowKeys) && OrderedKeys(high, highKeys) && high == low && highKeys == lowKeys
    }

    /** The tick's queries over the current dictionaries. */
    function Queries(): seq<Query>
      reads this
      requires Valid()
    {
      CryptoQueries(low, lowKeys, high, highKeys)
    }

    constructor (store: Redis, sink: Firebase)
      ensures Valid() && this.store == store && this.sink == sink
      ensures low == map[] && lowKeys == [] && high == map[] && highKeys == []
    {
      this.store, this.sink := store, sink;
      low, lowKeys, high, highKeys := map[], [], map[], [];
    }

    /** `consumeTrade(trade)` for a trade of `pair` at `price`: both dictionaries keep the
        smaller of their entry and the price. */
    method ConsumeTrade(pair: string, price: int)
      requires Valid()
      modifies this`low, this`lowKeys, this`high, this`highKeys
      ensures Valid()
      ensures low == Lowered(old(low), pair, price) && lowKeys == LoweredKeys(old(low), old(lowKeys), pair)
      ensures high == Lowered(old(high), pair, price) && highKeys == LoweredKeys(old(high), old(highKeys), pair)
      ensures high == low && highKeys == lowKeys
    {
      LoweredKeepsOrder(low, lowKeys, pair, price);
      LoweredKeepsOrder(high, highKeys, pair, price);
      var prevPriceLow := if pair in low then Wrappers.Some(low[pair]) else Wrappers.None;
      if prevPriceLow.None? || price < prevPriceLow.value {
        if pair !in low { lowKeys := lowKeys + [pair]; }
        low := low[pair := price];
      }
      var prevPriceHigh := if pair in high then Wrappers.Some(high[pair]) else Wrappers.None;
      if prevPriceHigh.None? || price < prevPriceHigh.value {
        if pair !in high { highKeys := highKeys + [pair]; }
        high := high[pair := price];
      }
    }

    /** `consumeAggregate(aggregate)`: reads the aggregate and does nothing with it. */
    method ConsumeAggregate(pair: string, l: int, h: int)
      ensures unchanged(this)
    {
    }

    /** `nextTick()`: query every pair of both dictionaries, queue a ZREM and a trigger for
        every match, run the queued ZREMs as one batch, then fire the triggers. The
        dictionaries are left as they are. `ts` is the order the triggers ran in. */
    method NextTick(now: int) returns (ghost ts: seq<TriggerSet>)
      requires Valid()
      modifies store`zsets, sink`written
      ensures unchanged(this)
      ensures multiset(ts) == Bag(old(store.zsets), Queries())
      ensures store.zsets == AfterTick(old(store.zsets), store.records, Queries(), ts, now)
      ensures sink.written == old(sink.written) + Notes(store.records, ts, now)
    {
      var overDels, overTriggers := CollectTracker(store, lowKeys, low, Crypto, "price_over");
      var underDels, underTriggers := CollectTracker(store, highKeys, high, Crypto, "price_under");
      QueriesAppend(store.zsets, TrackerQueries(lowKeys, low, Crypto, "price_over"),
                    TrackerQueries(highKeys, high, Crypto, "price_under"));
      var multiDelete, triggerSets := overDels + underDels, overTriggers + underTriggers;
      ElemsAppend(overDels, underDels);
      store.ZRemAll(multiDelete);
      TriggerAll(store, sink, triggerSets, now);
      ts := triggerSets;
    }
  }

  /** A second tick with no re-arm and no trade in between fires nothing: the dictionaries are
      unchanged, so it runs the same queries, and they match nothing. */
  lemma CryptoSecondTickSilent(z: ZSets, records: map<string, Alert>, low: map<string, int>, lowKeys: seq<string>,
                               high: map<string, int>, highKeys: seq<string>, ts: seq<TriggerSet>, now: int)
    requires OrderedKeys(low, lowKeys) && OrderedKeys(high, highKeys)
    ensures Bag(AfterTick(z, records, CryptoQueries(low, lowKeys, high, highKeys), ts, now),
                CryptoQueries(low, lowKeys, high, highKeys)) == multiset{}
  {
    TrackerQueriesDistinct(lowKeys, low, highKeys, high, Crypto, "price_over", "price_under");
    TickIdempotent(z, records, CryptoQueries(low, lowKeys, high, highKeys), ts, now);
  }

  /** What both trackers hold after a run of trades from empty dictionaries (they are equal
      by `CryptoConsumer.Valid`): the smallest price of each pair, never its largest; a pair
      traded at 1 and then at 2 has "high" 1. */
  lemma HighTrackerHoldsLowest(trades: seq<(string, int)>, pair: string)
    requires pair in Track(map[], trades)
    ensures forall i :: 0 <= i < |trades| && trades[i].0 == pair ==> Track(map[], trades)[pair] <= trades[i].1
    ensures Track(map[], [(pair, 1), (pair, 2)])[pair] == 1
  {
    TrackIsMinimum(trades, pair);
  }
}
