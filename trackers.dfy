/** The per-symbol "lowest value seen" dictionaries the consumers keep between ticks
    (`list_price_low`, `list_price_high` in crypto_consumer.ts, `lowestBid` in
    forex_consumer.ts). A JavaScript object iterates integer-like keys first, in ascending
    order, and then its other keys in insertion order. Symbols are not integer-like, so a
    dictionary is a map together with its insertion order. */
module Trackers {
  import opened Collections
  import opened Store
  import opened Consumer

  /** `keys` lists the keys of `m` in insertion order, each once. */
  ghost predicate OrderedKeys(m: map<string, int>, keys: seq<string>)
  {
    Distinct(keys) && forall k :: k in m <==> k in keys
  }

  /** The update both consumers apply: `if (prev === undefined || value < prev) dict[symbol] = value`.
      The entry becomes the smaller of the old entry and the new value; no other entry changes. */
  function Lowered(m: map<string, int>, symbol: string, value: int): (r: map<string, int>)
    ensures r.Keys == m.Keys + {symbol}
    ensures r[symbol] == if symbol in m && m[symbol] <= value then m[symbol] else value
    ensures forall k | k in m && k != symbol :: r[k] == m[k]
  {
    if symbol !in m || value < m[symbol] then m[symbol := value] else m
  }

  /** The insertion order after `Lowered`: a new symbol goes last. */
  function LoweredKeys(m: map<string, int>, keys: seq<string>, symbol: string): seq<string>
  {
    if symbol in m then keys else keys + [symbol]
  }

  lemma LoweredKeepsOrder(m: map<string, int>, keys: seq<string>, symbol: string, value: int)
    requires OrderedKeys(m, keys)
    ensures OrderedKeys(Lowered(m, symbol, value), LoweredKeys(m, keys, symbol))
  {
  }

  /** The dictionary a run of (symbol, value) updates leaves, starting from `m`. */
  function Track(m: map<string, int>, updates: seq<(string, int)>): map<string, int>
  {
    if updates == [] then m
    else var u := updates[|updates| - 1]; Lowered(Track(m, updates[..|updates| - 1]), u.0, u.1)
  }

  /** The key order a run of updates leaves, starting from `keys`. */
  function TrackKeys(m: map<string, int>, keys: seq<string>, updates: seq<(string, int)>): seq<string>
  {
    if updates == [] then keys
    else var u := updates[|updates| - 1];
         LoweredKeys(Track(m, updates[..|updates| - 1]), TrackKeys(m, keys, updates[..|updates| - 1]), u.0)
  }

  lemma {:induction false} TrackKeepsOrder(m: map<string, int>, keys: seq<string>, updates: seq<(string, int)>)
    requires OrderedKeys(m, keys)
    ensures OrderedKeys(Track(m, updates), TrackKeys(m, keys, updates))
  {
    if updates != [] {
      var init, u := updates[..|updates| - 1], updates[|updates| - 1];
      TrackKeepsOrder(m, keys, init);
      LoweredKeepsOrder(Track(m, init), TrackKeys(m, keys, init), u.0, u.1);
    }
  }

  /** Two runs of updates back to back are one run: the dictionary a stream of frames leaves
      is `Track` of all their updates together. */
  lemma {:induction false} TrackAppend(m: map<string, int>, a: seq<(string, int)>, b: seq<(string, int)>)
    ensures Track(m, a + b) == Track(Track(m, a), b)
  {
    if b == [] {
      assert a + b == a;
    } else {
      var init := b[..|b| - 1];
      assert (a + b)[..|a + b| - 1] == a + init;
      assert (a + b)[|a + b| - 1] == b[|b| - 1];
      TrackAppend(m, a, init);
    }
  }

  /** The key order follows the same law. */
  lemma {:induction false} TrackKeysAppend(m: map<string, int>, keys: seq<string>, a: seq<(string, int)>, b: seq<(string, int)>)
    ensures TrackKeys(m, keys, a + b) == TrackKeys(Track(m, a), TrackKeys(m, keys, a), b)
  {
    if b == [] {
      assert a + b == a;
    } else {
      var init := b[..|b| - 1];
      assert (a + b)[..|a + b| - 1] == a + init;
      assert (a + b)[|a + b| - 1] == b[|b| - 1];
      TrackKeysAppend(m, keys, a, init);
      TrackAppend(m, a, init);
    }
  }

  /** Both laws at once, for a loop that feeds updates one message at a time. */
  lemma TrackStep(m: map<string, int>, keys: seq<string>, a: seq<(string, int)>, b: seq<(string, int)>)
    ensures Track(m, a + b) == Track(Track(m, a), b)
    ensures TrackKeys(m, keys, a + b) == TrackKeys(Track(m, a), TrackKeys(m, keys, a), b)
  {
    TrackAppend(m, a, b);
    TrackKeysAppend(m, keys, a, b);
  }

  /** Starting from an empty dictionary, a symbol is tracked iff some update named it, and its
      entry is the smallest value any update gave it. */
  lemma {:induction false} TrackIsMinimum(updates: seq<(string, int)>, symbol: string)
    ensures symbol in Track(map[], updates) <==> exists i :: 0 <= i < |updates| && updates[i].0 == symbol
    ensures symbol in Track(map[], updates) ==>
      (exists i :: 0 <= i < |updates| && updates[i] == (symbol, Track(map[], updates)[symbol]))
    ensures symbol in Track(map[], updates) ==>
      forall i :: 0 <= i < |updates| && updates[i].0 == symbol ==> Track(map[], updates)[symbol] <= updates[i].1
  {
    if updates != [] {
      var n := |updates| - 1;
      var init := updates[..n];
      TrackIsMinimum(init, symbol);
      assert forall i :: 0 <= i < n ==> updates[i] == init[i];
      var before := Track(map[], init);
      if symbol in before && updates[n].0 == symbol && before[symbol] <= updates[n].1 {
        var i :| 0 <= i < n && init[i] == (symbol, before[symbol]);
        assert updates[i] == (symbol, Track(map[], updates)[symbol]);
      }
      if symbol in before && updates[n].0 != symbol {
        var i :| 0 <= i < n && init[i] == (symbol, before[symbol]);
        assert updates[i] == (symbol, Track(map[], updates)[symbol]);
      }
    }
  }

  /** The range queries a tick runs over a dictionary, in its key order: for each symbol,
      `zrangebyscore(alerts_<market>_<suffix>:<symbol>, 0, dict[symbol])`. */
  function TrackerQueries(keys: seq<string>, m: map<string, int>, market: Market, suffix: string): (qs: seq<Query>)
    requires forall k :: k in keys ==> k in m
    ensures |qs| == |keys|
    ensures forall i :: 0 <= i < |keys| ==> qs[i] == Query(AlertIndex(market, suffix, keys[i]), m[keys[i]])
  {
    if keys == [] then []
    else TrackerQueries(keys[..|keys| - 1], m, market, suffix)
         + [Query(AlertIndex(market, suffix, keys[|keys| - 1]), m[keys[|keys| - 1]])]
  }

  /** Appending one symbol appends its query. */
  lemma TrackerQueriesStep(keys: seq<string>, m: map<string, int>, market: Market, suffix: string, i: nat)
    requires i < |keys| && forall k :: k in keys ==> k in m
    ensures TrackerQueries(keys[..i + 1], m, market, suffix)
         == TrackerQueries(keys[..i], m, market, suffix) + [Query(AlertIndex(market, suffix, keys[i]), m[keys[i]])]
  {
    assert keys[..i + 1][..i] == keys[..i];
  }

  /** Queries over distinct symbols and two different suffixes hit distinct keys. */
  lemma TrackerQueriesDistinct(keys1: seq<string>, m1: map<string, int>, keys2: seq<string>, m2: map<string, int>,
                               market: Market, suffix1: string, suffix2: string)
    requires forall k :: k in keys1 ==> k in m1
    requires forall k :: k in keys2 ==> k in m2
    requires Distinct(keys1) && Distinct(keys2) && suffix1 != suffix2
    ensures OneQueryPerKey(TrackerQueries(keys1, m1, market, suffix1) + TrackerQueries(keys2, m2, market, suffix2))
    ensures IndexQueries(TrackerQueries(keys1, m1, market, suffix1) + TrackerQueries(keys2, m2, market, suffix2))
  {
  }

  /** Removals and triggers of two query lists run back to back. */
  lemma {:induction false} QueriesAppend(z: ZSets, a: seq<Query>, b: seq<Query>)
    ensures Removals(z, a + b) == Removals(z, a) + Removals(z, b)
    ensures Bag(z, a + b) == Bag(z, a) + Bag(z, b)
  {
    if b != [] {
      var n := |b| - 1;
      assert (a + b)[..|a + b| - 1] == a + b[..n];
      QueriesAppend(z, a, b[..n]);
    } else {
      assert a + b == a;
    }
  }

  /** One more symbol's ZRANGEBYSCORE adds its removals and triggers to those of the symbols
      before it. */
  lemma CollectStep(z: ZSets, keys: seq<string>, m: map<string, int>, market: Market, suffix: string, i: nat,
                    dels: seq<(ZKey, string)>, ts: seq<TriggerSet>, d: seq<(ZKey, string)>, t: seq<TriggerSet>)
    requires i < |keys| && forall k :: k in keys ==> k in m
    requires Elems(dels) == Removals(z, TrackerQueries(keys[..i], m, market, suffix))
    requires multiset(ts) == Bag(z, TrackerQueries(keys[..i], m, market, suffix))
    requires Elems(d) == QueryRemovals(z, Query(AlertIndex(market, suffix, keys[i]), m[keys[i]]))
    requires multiset(t) == multiset(QueryTriggers(z, Query(AlertIndex(market, suffix, keys[i]), m[keys[i]])))
    ensures Elems(dels + d) == Removals(z, TrackerQueries(keys[..i + 1], m, market, suffix))
    ensures multiset(ts + t) == Bag(z, TrackerQueries(keys[..i + 1], m, market, suffix))
  {
    var qs, q := TrackerQueries(keys[..i], m, market, suffix), Query(AlertIndex(market, suffix, keys[i]), m[keys[i]]);
    TrackerQueriesStep(keys, m, market, suffix, i);
    assert (qs + [q])[..|qs|] == qs;
    assert Elems(dels + d) == Elems(dels) + Elems(d);
  }

  /** The `for (let symbol in dict)` loop of a tick: for each symbol, in key order, the
      `zrangebyscore` + `forEach` block against `alerts_<market>_<suffix>:<symbol>`. */
  method CollectTracker(store: Redis, keys: seq<string>, m: map<string, int>, market: Market, suffix: string)
    returns (dels: seq<(ZKey, string)>, ts: seq<TriggerSet>)
    requires forall k :: k in keys ==> k in m
    ensures Elems(dels) == Removals(store.zsets, TrackerQueries(keys, m, market, suffix))
    ensures multiset(ts) == Bag(store.zsets, TrackerQueries(keys, m, market, suffix))
  {
    dels, ts := [], [];
    assert keys[..0] == [];
    for i := 0 to |keys|
      invariant Elems(dels) == Removals(store.zsets, TrackerQueries(keys[..i], m, market, suffix))
      invariant multiset(ts) == Bag(store.zsets, TrackerQueries(keys[..i], m, market, suffix))
    {
      var q := Query(AlertIndex(market, suffix, keys[i]), m[keys[i]]);
      var d, t := Collect(store, q);
      CollectStep(store.zsets, keys, m, market, suffix, i, dels, ts, d, t);
      dels, ts := dels + d, ts + t;
    }
    assert keys[..|keys|] == keys;
  }
}
