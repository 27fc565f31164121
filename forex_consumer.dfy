/** The forex consumer (src/shared/watcher/consumers/forex_consumer.ts): every quote lowers
    the pair's entry in `lowestBid`; a tick matches each pair's lowest bid against
    `alerts_forex_price_over:<pair>` only, issuing the ZREMs pair by pair, and then empties
    the dictionary. */
module ForexConsumer {
  import opened Collections
  import opened Store
  import opened Consumer
  import opened Trackers

  /** The queries of a forex tick: the over-index of every pair of `lowestBid`, up to its
      lowest bid, in insertion order. */
  function ForexQueries(lowestBid: map<string, int>, bidKeys: seq<string>): seq<Query>
    requires forall k :: k in bidKeys ==> k in lowestBid
  {
    TrackerQueries(bidKeys, lowestBid, Forex, "price_over")
  }

  /** An id is matched by a forex tick iff it sits in [0, lowest bid] of some quoted pair's
      over-index. */
  lemma ForexMatchedBy(z: ZSets, lowestBid: map<string, int>, bidKeys: seq<string>)
    requires OrderedKeys(lowestBid, bidKeys)
    ensures forall id :: MatchedBy(z, ForexQueries(lowestBid, bidKeys), id)
              <==> exists pair :: pair in lowestBid && id in InRange(Members(z, OverKey(Forex, pair)), 0, lowestBid[pair])
  {
    var qs := ForexQueries(lowestBid, bidKeys);
    forall id
      ensures MatchedBy(z, qs, id)
              <==> exists pair :: pair in lowestBid && id in InRange(Members(z, OverKey(Forex, pair)), 0, lowestBid[pair])
    {
      if MatchedBy(z, qs, id) {
        var q :| q in qs && id in Matched(z, q);
        var i :| 0 <= i < |qs| && qs[i] == q;
        assert bidKeys[i] in lowestBid;
      }
      if exists pair :: pair in lowestBid && id in InRange(Members(z, OverKey(Forex, pair)), 0, lowestBid[pair]) {
        var pair :| pair in lowestBid && id in InRange(Members(z, OverKey(Forex, pair)), 0, lowestBid[pair]);
        var i :| 0 <= i < |bidKeys| && bidKeys[i] == pair;
        assert qs[i] in qs && id in Matched(z, qs[i]);
      }
    }
  }

  /** What a forex tick does to the store: the over-index of every quoted pair loses exactly
      the ids scored in [0, lowest bid], every matched id with a re-arm goes to
      `fired_alerts`, and nothing else changes; under-indexes are never consulted. */
  lemma ForexTickEffect(z: ZSets, records: map<string, Alert>, lowestBid: map<string, int>, bidKeys: seq<string>,
                        ts: seq<TriggerSet>, now: int)
    requires OrderedKeys(lowestBid, bidKeys)
    requires multiset(ts) == Bag(z, ForexQueries(lowestBid, bidKeys))
    ensures forall pair, id | pair in lowestBid ::
      id in Members(AfterTick(z, records, ForexQueries(lowestBid, bidKeys), ts, now), OverKey(Forex, pair))
      <==> id in Members(z, OverKey(Forex, pair)) && !(0 <= Members(z, OverKey(Forex, pair))[id] <= lowestBid[pair])
    ensures forall k | k != FiredAlerts && !(k.market == Forex && k.suffix == "price_over" && k.symbol in lowestBid) ::
      Members(AfterTick(z, records, ForexQueries(lowestBid, bidKeys), ts, now), k) == Members(z, k)
    ensures forall id ::
              id in Members(AfterTick(z, records, ForexQueries(lowestBid, bidKeys), ts, now), FiredAlerts)
              <==> id in Members(z, FiredAlerts)
                   || ((exists pair :: pair in lowestBid && id in InRange(Members(z, OverKey(Forex, pair)), 0, lowestBid[pair]))
                       && Schedules(records, id))
  {
    var qs := ForexQueries(lowestBid, bidKeys);
    TrackerQueriesDistinct(bidKeys, lowestBid, [], map[], Forex, "price_over", "price_under");
    assert TrackerQueries([], map[], Forex, "price_under") == [];
    assert qs + [] == qs;
    forall pair | pair in lowestBid
      ensures forall id ::
                id in Members(AfterTick(z, records, qs, ts, now), OverKey(Forex, pair))
                <==> id in Members(z, OverKey(Forex, pair)) && !(0 <= Members(z, OverKey(Forex, pair))[id] <= lowestBid[pair])
    {
      var i :| 0 <= i < |bidKeys| && bidKeys[i] == pair;
      assert qs[i] == Query(OverKey(Forex, pair), lowestBid[pair]);
      TickPrunesQueriedKey(z, records, qs, ts, now, qs[i]);
    }
    forall k | k != FiredAlerts && !(k.market == Forex && k.suffix == "price_over" && k.symbol in lowestBid)
      ensures Members(AfterTick(z, records, qs, ts, now), k) == Members(z, k)
    {
      TickKeepsOtherKeys(z, records, qs, ts, now, k);
    }
    TickFires(z, records, qs, ts, now);
    ForexMatchedBy(z, lowestBid, bidKeys);
  }

  /** A tick over an empty `lowestBid`, which is what the tick leaves behind, triggers
      nothing, writes nothing and leaves the store as it was. */
  lemma ForexIdleTick(z: ZSets, records: map<string, Alert>, ts: seq<TriggerSet>, now: int)
    requires multiset(ts) == Bag(z, ForexQueries(map[], []))
    ensures ts == []
    ensures AfterTick(z, records, ForexQueries(map[], []), ts, now) == z
    ensures Notes(records, ts, now) == []
  {
    assert ForexQueries(map[], []) == [];
    assert |multiset(ts)| == 0;
    assert RemovePairs(z, {}) == z by {
      RemovePairsNone(z);
    }
  }

  /** One query of the loop: a key none of the earlier pairs queried, so the earlier ZREMs
      have not touched it, and its ZREMs join theirs. */
  lemma PruneStep(z: ZSets, lowestBid: map<string, int>, bidKeys: seq<string>, i: nat)
    requires OrderedKeys(lowestBid, bidKeys) && i < |bidKeys|
    ensures forall q' :: q' in ForexQueries(lowestBid, bidKeys[..i]) ==> q'.key != OverKey(Forex, bidKeys[i])
    ensures ForexQueries(lowestBid, bidKeys[..i + 1])
            == ForexQueries(lowestBid, bidKeys[..i]) + [Query(OverKey(Forex, bidKeys[i]), lowestBid[bidKeys[i]])]
  {
    var done := ForexQueries(lowestBid, bidKeys[..i]);
    forall q' | q' in done ensures q'.key != OverKey(Forex, bidKeys[i]) {
      var j :| 0 <= j < |done| && done[j] == q';
      assert bidKeys[j] != bidKeys[i];
    }
    TrackerQueriesStep(bidKeys, lowestBid, Forex, "price_over", i);
  }

  /** The loop of `nextTick()`: for each pair in order, query its over-index up to the lowest
      bid and ZREM the matches at once; returns the triggers in the order they were queued. */
  method PruneEach(store: Redis, bidKeys: seq<string>, lowestBid: map<string, int>) returns (ts: seq<TriggerSet>)
    requires OrderedKeys(lowestBid, bidKeys)
    modifies store`zsets
    ensures store.zsets == RemovePairs(old(store.zsets), Removals(old(store.zsets), ForexQueries(lowestBid, bidKeys)))
    ensures multiset(ts) == Bag(old(store.zsets), ForexQueries(lowestBid, bidKeys))
  {
    ghost var z0 := store.zsets;
    ts := [];
    assert bidKeys[..0] == [];
    RemovePairsNone(z0);
    for i := 0 to |bidKeys|
      invariant store.zsets == RemovePairs(z0, Removals(z0, ForexQueries(lowestBid, bidKeys[..i])))
      invariant multiset(ts) == Bag(z0, ForexQueries(lowestBid, bidKeys[..i]))
    {
      var symbol := bidKeys[i];
      var lowBid := lowestBid[symbol];
      ghost var done := ForexQueries(lowestBid, bidKeys[..i]);
      var q := Query(OverKey(Forex, symbol), lowBid);
      PruneStep(z0, lowestBid, bidKeys, i);
      PruneKeepsUnqueried(z0, done, q);
      var dels, found := Collect(store, q);
      store.ZRemAll(dels);
      RemovePairsTwice(z0, Removals(z0, done), QueryRemovals(z0, q));
      assert (done + [q])[..|done + [q]| - 1] == done;
      ts := ts + found;
    }
    assert bidKeys[..|bidKeys|] == bidKeys;
  }

  class ForexConsumer {
    const store: Redis
    const sink: Firebase
    /** `lowestBid` and its key order. */
    var lowestBid: map<string, int>
    var bidKeys: seq<string>

    ghost predicate Valid()
      reads this
    {
      OrderedKeys(lowestBid, bidKeys)
    }

    function Queries(): seq<Query>
      reads this
      requires Valid()
    {
      ForexQueries(lowestBid, bidKeys)
    }

    constructor (store: Redis, sink: Firebase)
      ensures Valid() && this.store == store && this.sink == sink
      ensures lowestBid == map[]
    {
      this.store, this.sink := store, sink;
      lowestBid, bidKeys := map[], [];
    }

    /** `consumerQuote(quote)` for a quote of `pair` with bid `bid`: the entry keeps the
        smaller of itself and the bid. */
    method ConsumerQuote(pair: string, bid: int)
      requires Valid()
      modifies this`lowestBid, this`bidKeys
      ensures Valid()
      ensures lowestBid == Lowered(old(lowestBid), pair, bid)
      ensures bidKeys == LoweredKeys(old(lowestBid), old(bidKeys), pair)
    {
      LoweredKeepsOrder(lowestBid, bidKeys, pair, bid);
      var prevBid := if pair in lowestBid then Wrappers.Some(lowestBid[pair]) else Wrappers.None;
      if prevBid.None? || bid < prevBid.value {
        if pair !in lowestBid { bidKeys := bidKeys + [pair]; }
        lowestBid := lowestBid[pair := bid];
      }
    }

    /** `nextTick()`: for every pair, query its over-index up to the lowest bid, ZREM each
        match and queue its trigger; then empty `lowestBid` and fire the triggers. The ZREMs
        of one pair go out before the next pair is queried; since every pair has its own
        index, the store ends as if they had been batched. `ts` is the order the triggers ran in. */
    method NextTick(now: int) returns (ghost ts: seq<TriggerSet>)
      requires Valid()
      modifies this`lowestBid, this`bidKeys, store`zsets, sink`written
      ensures Valid() && lowestBid == map[]
      ensures multiset(ts) == Bag(old(store.zsets), ForexQueries(old(lowestBid), old(bidKeys)))
      ensures store.zsets == AfterTick(old(store.zsets), store.records, ForexQueries(old(lowestBid), old(bidKeys)), ts, now)
      ensures sink.written == old(sink.written) + Notes(store.records, ts, now)
    {
      var triggerPromises := PruneEach(store, bidKeys, lowestBid);
      lowestBid, bidKeys := map[], [];
      TriggerAll(store, sink, triggerPromises, now);
      ts := triggerPromises;
    }
  }
}
