/** The key-value store the pipeline runs on (Redis behind `RedisService`), reduced to the
    keys the alert pipeline touches:
    - sorted sets: the threshold indexes `alerts_<market>_<suffix>:<symbol>` (alert id ->
      threshold) and `fired_alerts` (alert id -> re-arm time);
    - the alert records `alerts:<id>`, already parsed;
    - the sets `<market>_watchlist` and the hashes `<market>_watchers:<symbol>`. */
module Store {
  import opened Wrappers
  import opened Collections

  /** A market segment; `MarketName` is its `MarketType` string. */
  datatype Market = Stocks | Crypto | Forex

  function MarketName(m: Market): string
  {
    match m
    case Stocks => "stocks"
    case Crypto => "crypto"
    case Forex => "forex"
  }

  /** An alert record `alerts:<id>`: symbol `s`, socket symbol `ss`, type `t`, condition `c`,
      threshold `v`, creation time `d`, owner `u`, enabled flag `e`, reset option `r`.
      Prices are only compared, so they are integers here. */
  datatype Alert = Alert(s: string, ss: string, t: int, c: int, v: int, d: int, u: string, e: int, r: int)

  /** The name of a sorted set. */
  datatype ZKey = AlertIndex(market: Market, suffix: string, symbol: string) | FiredAlerts

  /** The key text Redis sees. */
  function KeyName(k: ZKey): string
  {
    match k
    case AlertIndex(m, suffix, symbol) => "alerts_" + MarketName(m) + "_" + suffix + ":" + symbol
    case FiredAlerts => "fired_alerts"
  }

  /** Different keys have different names as long as no index suffix holds a `:` (the
      pipeline's suffixes are words joined by `_`), so keeping keys structured loses nothing. */
  lemma KeyNamesApart(k1: ZKey, k2: ZKey)
    requires k1 != k2
    requires k1.AlertIndex? ==> ':' !in k1.suffix
    requires k2.AlertIndex? ==> ':' !in k2.suffix
    ensures KeyName(k1) != KeyName(k2)
  {
    var n1, n2 := KeyName(k1), KeyName(k2);
    if k1.AlertIndex? != k2.AlertIndex? {
      assert n1[0] != n2[0];
    } else if k1.AlertIndex? {
      if k1.market != k2.market {
        assert n1[7] != n2[7];
      } else {
        var p := "alerts_" + MarketName(k1.market) + "_";
        var r1, r2 := k1.suffix + ":" + k1.symbol, k2.suffix + ":" + k2.symbol;
        assert n1 == p + r1 && n2 == p + r2;
        assert n1[|p|..] == r1 && n2[|p|..] == r2;
        SplitsApart(k1.suffix, k1.symbol, k2.suffix, k2.symbol);
      }
    }
  }

  /** The position of the first `:` of `r`, or its length when it has none. */
  function ColonAt(r: string): nat
  {
    if r == [] || r[0] == ':' then 0 else 1 + ColonAt(r[1..])
  }

  lemma {:induction false} ColonAfter(s: string, t: string)
    requires ':' !in s
    ensures ColonAt(s + ":" + t) == |s|
  {
    if s != [] {
      assert (s + ":" + t)[1..] == s[1..] + ":" + t;
      ColonAfter(s[1..], t);
    }
  }

  /** `<suffix>:<symbol>` splits at its first `:` when the suffix holds none, so different
      pairs give different strings. */
  lemma SplitsApart(s1: string, t1: string, s2: string, t2: string)
    requires ':' !in s1 && ':' !in s2
    requires s1 != s2 || t1 != t2
    ensures s1 + ":" + t1 != s2 + ":" + t2
  {
    var r1, r2 := s1 + ":" + t1, s2 + ":" + t2;
    if |s1| != |s2| {
      ColonAfter(s1, t1);
      ColonAfter(s2, t2);
    } else if s1 != s2 {
      assert r1[..|s1|] == s1 && r2[..|s2|] == s2;
    } else {
      assert r1[|s1| + 1..] == t1 && r2[|s2| + 1..] == t2;
    }
  }

  /** `alerts_<market>_price_over:<symbol>` and `alerts_<market>_price_under:<symbol>`. */
  function OverKey(m: Market, symbol: string): ZKey { AlertIndex(m, "price_over", symbol) }

  function UnderKey(m: Market, symbol: string): ZKey { AlertIndex(m, "price_under", symbol) }

  /** A sorted set: member -> score. */
  type ZSet = map<string, int>

  /** Every sorted set of the store. A missing key reads as the empty set, as in Redis. */
  type ZSets = map<ZKey, ZSet>

  function Members(z: ZSets, k: ZKey): ZSet
  {
    if k in z then z[k] else map[]
  }

  /** The members ZRANGEBYSCORE k lo hi returns: those scored in [lo, hi]. */
  function InRange(s: ZSet, lo: int, hi: int): set<string>
  {
    set id | id in s && lo <= s[id] <= hi
  }

  /** ZADD k score id: inserts the member or overwrites its score; no other set changes. */
  function Added(z: ZSets, k: ZKey, score: int, id: string): (r: ZSets)
    ensures Members(r, k) == Members(z, k)[id := score]
    ensures forall k' :: k' != k ==> Members(r, k') == Members(z, k')
  {
    z[k := Members(z, k)[id := score]]
  }

  /** ZREM k id: drops the member if present; no other set changes. */
  function Removed(z: ZSets, k: ZKey, id: string): (r: ZSets)
    ensures Members(r, k) == Members(z, k) - {id}
    ensures forall k' :: k' != k ==> Members(r, k') == Members(z, k')
  {
    if k in z then z[k := z[k] - {id}] else z
  }

  /** A batch of ZREMs (the `multi()` queue): every listed (key, member) pair is dropped. */
  function RemovePairs(z: ZSets, dels: set<(ZKey, string)>): (r: ZSets)
    ensures r.Keys == z.Keys
    ensures forall k, id :: id in Members(r, k) <==> id in Members(z, k) && (k, id) !in dels
    ensures forall k, id | id in Members(r, k) :: Members(r, k)[id] == Members(z, k)[id]
  {
    map k | k in z :: map id | id in z[k] && (k, id) !in dels :: z[k][id]
  }

  /** Dropping one more pair after a batch is the batch with that pair added. */
  lemma RemovePairsStep(z: ZSets, dels: set<(ZKey, string)>, k: ZKey, id: string)
    ensures Removed(RemovePairs(z, dels), k, id) == RemovePairs(z, dels + {(k, id)})
  {
    var a, b := Removed(RemovePairs(z, dels), k, id), RemovePairs(z, dels + {(k, id)});
    forall k' | k' in z ensures a[k'] == b[k'] {
      assert Members(a, k') == a[k'] && Members(b, k') == b[k'];
      forall x ensures x in a[k'] <==> x in b[k'] {
        assert (k', x) in dels + {(k, id)} <==> (k', x) in dels || (k' == k && x == id);
      }
    }
  }

  /** An empty batch changes nothing. */
  lemma RemovePairsNone(z: ZSets)
    ensures RemovePairs(z, {}) == z
  {
    var r := RemovePairs(z, {});
    forall k | k in z ensures r[k] == z[k] { }
  }

  /** Two batches in a row are one batch of their union. */
  lemma RemovePairsTwice(z: ZSets, a: set<(ZKey, string)>, b: set<(ZKey, string)>)
    ensures RemovePairs(RemovePairs(z, a), b) == RemovePairs(z, a + b)
  {
    var l, r := RemovePairs(RemovePairs(z, a), b), RemovePairs(z, a + b);
    forall k | k in z ensures l[k] == r[k] { }
  }

  /** The members of `<market>_watchlist`; a missing set reads as empty. */
  function Listed(w: map<Market, set<string>>, m: Market): set<string>
  {
    if m in w then w[m] else {}
  }

  /** The watchlists after SREM <market>_watchlist symbol: the symbol leaves that
      watchlist and every other watchlist stays. */
  function Unwatched(w: map<Market, set<string>>, m: Market, symbol: string): (r: map<Market, set<string>>)
    ensures Listed(r, m) == Listed(w, m) - {symbol}
    ensures forall m' | m' != m :: Listed(r, m') == Listed(w, m')
  {
    if m in w then w[m := w[m] - {symbol}] else w
  }

  /** Lists the elements of a set in some order, each once (the reply of SMEMBERS or
      ZRANGEBYSCORE; Redis fixes an order the model leaves open). */
  method Enumerate(s: set<string>) returns (xs: seq<string>)
    ensures Elems(xs) == s
    ensures Distinct(xs)
  {
    xs := [];
    var rest := s;
    while rest != {}
      invariant Elems(xs) + rest == s
      invariant Elems(xs) !! rest
      invariant Distinct(xs)
      decreases rest
    {
      var x :| x in rest;
      xs := xs + [x];
      rest := rest - {x};
    }
  }

  /** The store commands whose failure the pipeline handles: a rejected promise lands in the
      caller's `catch`. */
  datatype Command = HGetAllCommand | SRemCommand

  class Redis {
    var zsets: ZSets
    var records: map<string, Alert>
    var watchlists: map<Market, set<string>>
    var watchers: map<(Market, string), map<string, string>>
    /** The commands the store currently refuses; see `HGetAll` and `SRem`. */
    var failing: set<Command>

    constructor (zsets: ZSets, records: map<string, Alert>, watchlists: map<Market, set<string>>,
                 watchers: map<(Market, string), map<string, string>>, failing: set<Command>)
      ensures this.zsets == zsets && this.records == records && this.watchlists == watchlists
      ensures this.watchers == watchers && this.failing == failing
    {
      this.zsets, this.records, this.watchlists := zsets, records, watchlists;
      this.watchers, this.failing := watchers, failing;
    }

    /** The members of `<market>_watchlist`. */
    function Watchlist(m: Market): set<string>
      reads this
    {
      Listed(watchlists, m)
    }

    /** GET alerts:<id>, parsed; None is the `null` reply for a missing record. */
    method Get(id: string) returns (r: Option<Alert>)
      ensures r.Some? <==> id in records
      ensures r.Some? ==> r.value == records[id]
    {
      r := if id in records then Some(records[id]) else None;
    }

    /** ZRANGEBYSCORE k lo hi. */
    method ZRangeByScore(k: ZKey, lo: int, hi: int) returns (ids: seq<string>)
      ensures Elems(ids) == InRange(Members(zsets, k), lo, hi)
      ensures Distinct(ids)
    {
      ids := Enumerate(InRange(Members(zsets, k), lo, hi));
    }

    method ZAdd(k: ZKey, score: int, id: string)
      modifies this`zsets
      ensures zsets == Added(old(zsets), k, score, id)
    {
      zsets := Added(zsets, k, score, id);
    }

    method ZRem(k: ZKey, id: string)
      modifies this`zsets
      ensures zsets == Removed(old(zsets), k, id)
    {
      zsets := Removed(zsets, k, id);
    }

    /** ZREM of every listed (key, member) pair, in order: the body of a `multi()` batch at
        EXEC, or ZREMs issued one by one. */
    method ZRemAll(dels: seq<(ZKey, string)>)
      modifies this`zsets
      ensures zsets == RemovePairs(old(zsets), Elems(dels))
    {
      RemovePairsNone(zsets);
      assert Elems(dels[..0]) == {};
      for i := 0 to |dels|
        invariant zsets == RemovePairs(old(zsets), Elems(dels[..i]))
      {
        RemovePairsStep(old(zsets), Elems(dels[..i]), dels[i].0, dels[i].1);
        assert Elems(dels[..i + 1]) == Elems(dels[..i]) + {dels[i]} by {
          assert dels[..i + 1] == dels[..i] + [dels[i]];
        }
        zsets := Removed(zsets, dels[i].0, dels[i].1);
      }
      assert dels[..|dels|] == dels;
    }

    /** SMEMBERS <market>_watchlist. */
    method SMembers(m: Market) returns (symbols: seq<string>)
      ensures Elems(symbols) == Watchlist(m)
      ensures Distinct(symbols)
    {
      symbols := Enumerate(Watchlist(m));
    }

    /** The watchlists after SREM <market>_watchlist symbol: without the symbol, or as they
        were when the store refuses the command. */
    function AfterSRem(m: Market, symbol: string): (r: map<Market, set<string>>)
      reads this
      ensures SRemCommand !in failing ==> Listed(r, m) == Listed(watchlists, m) - {symbol}
      ensures forall m' :: m' != m || SRemCommand in failing ==> Listed(r, m') == Listed(watchlists, m')
    {
      if SRemCommand in failing then watchlists else Unwatched(watchlists, m, symbol)
    }

    /** SREM <market>_watchlist symbol: fails, changing nothing, while the store refuses it. */
    method SRem(m: Market, symbol: string) returns (r: Result<()>)
      modifies this`watchlists
      ensures r.Err? <==> SRemCommand in failing
      ensures watchlists == old(AfterSRem(m, symbol))
    {
      if SRemCommand in failing {
        r := Err("srem refused");
        return;
      }
      if m in watchlists {
        watchlists := watchlists[m := watchlists[m] - {symbol}];
      }
      r := Ok(());
    }

    /** HGETALL <market>_watchers:<symbol>: fails while the store refuses it, otherwise
        the hash, or None when no watcher hash exists. */
    method HGetAll(m: Market, symbol: string) returns (r: Result<Option<map<string, string>>>)
      ensures r.Err? <==> HGetAllCommand in failing
      ensures r.Ok? ==> (r.value.Some? <==> (m, symbol) in watchers)
      ensures r.Ok? && r.value.Some? ==> r.value.value == watchers[(m, symbol)]
    {
      if HGetAllCommand in failing {
        r := Err("hgetall refused");
      } else if (m, symbol) in watchers {
        r := Ok(Some(watchers[(m, symbol)]));
      } else {
        r := Ok(None);
      }
    }
  }
}
