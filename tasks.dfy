/** The re-arm sweep of src/shared/tasks/tasks.service.ts: every five seconds
    `alertsResetter` lists the `fired_alerts` entries whose re-arm time has come and runs
    `resetAlert` on each, which puts the alert's threshold back into its index and drops the
    `fired_alerts` entry. The symbol-to-market lookup (`typeForSymbol`) and the index suffix
    of a (type, condition) pair (`alertSuffix`) live in services outside this model and are
    parameters here. */
module Tasks {
  import opened Wrappers
  import opened Collections
  import opened Store

  /** The index an alert is re-armed into, `alerts_<market>_<suffix>:<ss>`, or None when the
      suffix is missing or empty (`!alertSuffix`). */
  function RearmKey(a: Alert, marketOf: string -> Market, suffixOf: (int, int) -> Option<string>): (r: Option<ZKey>)
    ensures r.Some? <==> suffixOf(a.t, a.c).Some? && suffixOf(a.t, a.c).value != ""
    ensures r.Some? ==> r.value.AlertIndex? && r.value.symbol == a.ss && r.value.market == marketOf(a.s)
                        && r.value.suffix == suffixOf(a.t, a.c).value
  {
    match suffixOf(a.t, a.c)
    case None => None
    case Some(sfx) => if sfx == "" then None else Some(AlertIndex(marketOf(a.s), sfx, a.ss))
  }

  /** `z1` and `z2` agree on member `x`: the same sets hold it, with the same scores. */
  ghost predicate SameFor(z1: ZSets, z2: ZSets, x: string)
  {
    forall k :: (x in Members(z1, k) <==> x in Members(z2, k))
                && (x in Members(z1, k) ==> Members(z1, k)[x] == Members(z2, k)[x])
  }

  /** The store after `resetAlert(id)`:
      - with no record `alerts:<id>`, the id leaves `fired_alerts` and nothing else changes;
      - with a record whose suffix is missing, nothing changes;
      - otherwise the id is in its index with the alert's threshold as score, is out of
        `fired_alerts`, and no other set changes.
      No other member moves in any case. */
  function ResetEffect(z: ZSets, records: map<string, Alert>, id: string,
                       marketOf: string -> Market, suffixOf: (int, int) -> Option<string>): (r: ZSets)
    ensures forall x | x != id :: SameFor(r, z, x)
    ensures id !in records ==>
              Members(r, FiredAlerts) == Members(z, FiredAlerts) - {id}
              && forall k | k != FiredAlerts :: Members(r, k) == Members(z, k)
    ensures id in records && RearmKey(records[id], marketOf, suffixOf).None? ==> r == z
    ensures id in records && RearmKey(records[id], marketOf, suffixOf).Some? ==>
              var key := RearmKey(records[id], marketOf, suffixOf).value;
              && Members(r, key) == Members(z, key)[id := records[id].v]
              && Members(r, FiredAlerts) == Members(z, FiredAlerts) - {id}
              && forall k | k != key && k != FiredAlerts :: Members(r, k) == Members(z, k)
  {
    if id !in records then Removed(z, FiredAlerts, id)
    else match RearmKey(records[id], marketOf, suffixOf)
      case None => z
      case Some(key) => Removed(Added(z, key, records[id].v, id), FiredAlerts, id)
  }

  /** The exclusion the pipeline relies on: after a reset that re-arms, the id is in its
      index and not in `fired_alerts`, so the next tick can fire it again and the sweep will
      not re-arm it twice. */
  lemma ResetExclusive(z: ZSets, records: map<string, Alert>, id: string,
                       marketOf: string -> Market, suffixOf: (int, int) -> Option<string>)
    requires id in records && RearmKey(records[id], marketOf, suffixOf).Some?
    ensures id in Members(ResetEffect(z, records, id, marketOf, suffixOf), RearmKey(records[id], marketOf, suffixOf).value)
    ensures id !in Members(ResetEffect(z, records, id, marketOf, suffixOf), FiredAlerts)
  {
  }

  /** Resetting an id twice leaves the store as resetting it once. */
  lemma ResetIdempotent(z: ZSets, records: map<string, Alert>, id: string,
                        marketOf: string -> Market, suffixOf: (int, int) -> Option<string>)
    ensures ResetEffect(ResetEffect(z, records, id, marketOf, suffixOf), records, id, marketOf, suffixOf)
            == ResetEffect(z, records, id, marketOf, suffixOf)
  {
    var once := ResetEffect(z, records, id, marketOf, suffixOf);
    var twice := ResetEffect(once, records, id, marketOf, suffixOf);
    if id in records && RearmKey(records[id], marketOf, suffixOf).Some? {
      var key := RearmKey(records[id], marketOf, suffixOf).value;
      assert twice.Keys == once.Keys;
      forall k | k in twice ensures twice[k] == once[k] {
        assert Members(twice, k) == Members(once, k);
      }
    } else if id !in records {
      assert twice.Keys == once.Keys;
      forall k | k in twice ensures twice[k] == once[k] {
        assert Members(twice, k) == Members(once, k);
      }
    }
  }

  /** What a reset does to `id` depends only on where `id` was. */
  lemma ResetLocal(z1: ZSets, z2: ZSets, records: map<string, Alert>, id: string,
                   marketOf: string -> Market, suffixOf: (int, int) -> Option<string>)
    requires SameFor(z1, z2, id)
    ensures SameFor(ResetEffect(z1, records, id, marketOf, suffixOf), ResetEffect(z2, records, id, marketOf, suffixOf), id)
  {
    var r1, r2 := ResetEffect(z1, records, id, marketOf, suffixOf), ResetEffect(z2, records, id, marketOf, suffixOf);
    forall k ensures (id in Members(r1, k) <==> id in Members(r2, k))
                     && (id in Members(r1, k) ==> Members(r1, k)[id] == Members(r2, k)[id])
    {
      assert id in Members(z1, k) <==> id in Members(z2, k);
    }
  }

  /** The resets of a list of ids, one after the other. */
  function ResetAll(z: ZSets, records: map<string, Alert>, ids: seq<string>,
                    marketOf: string -> Market, suffixOf: (int, int) -> Option<string>): ZSets
  {
    if ids == [] then z
    else ResetEffect(ResetAll(z, records, ids[..|ids| - 1], marketOf, suffixOf), records, ids[|ids| - 1], marketOf, suffixOf)
  }

  /** An id the sweep does not reset keeps its place and score everywhere. */
  lemma {:induction false} ResetAllOthers(z: ZSets, records: map<string, Alert>, ids: seq<string>,
                                          marketOf: string -> Market, suffixOf: (int, int) -> Option<string>, x: string)
    requires x !in ids
    ensures SameFor(ResetAll(z, records, ids, marketOf, suffixOf), z, x)
  {
    if ids != [] {
      var init := ids[..|ids| - 1];
      assert x !in init && x != ids[|ids| - 1] by { assert ids == init + [ids[|ids| - 1]]; }
      ResetAllOthers(z, records, init, marketOf, suffixOf, x);
      var mid := ResetAll(z, records, init, marketOf, suffixOf);
      var after := ResetEffect(mid, records, ids[|ids| - 1], marketOf, suffixOf);
      assert SameFor(after, mid, x);
    }
  }

  /** Every id of the sweep ends where a reset of that id alone, from the starting store,
      would put it: the order of the resets does not matter. */
  lemma {:induction false} ResetAllEach(z: ZSets, records: map<string, Alert>, ids: seq<string>,
                                        marketOf: string -> Market, suffixOf: (int, int) -> Option<string>, x: string)
    requires x in ids && Distinct(ids)
    ensures SameFor(ResetAll(z, records, ids, marketOf, suffixOf), ResetEffect(z, records, x, marketOf, suffixOf), x)
  {
    var init, last := ids[..|ids| - 1], ids[|ids| - 1];
    assert ids == init + [last];
    var mid := ResetAll(z, records, init, marketOf, suffixOf);
    if x == last {
      assert x !in init;
      ResetAllOthers(z, records, init, marketOf, suffixOf, x);
      ResetLocal(mid, z, records, x, marketOf, suffixOf);
    } else {
      assert x in init;
      assert Distinct(init) by {
        forall i, j | 0 <= i < j < |init| ensures init[i] != init[j] {
          assert init[i] == ids[i] && init[j] == ids[j];
        }
      }
      ResetAllEach(z, records, init, marketOf, suffixOf, x);
      var after := ResetEffect(mid, records, last, marketOf, suffixOf);
      assert SameFor(after, mid, x);
    }
  }

  /** `resetAlert(id)`: GET the record; without one, ZREM the id from `fired_alerts`;
      with one whose suffix is missing, stop; otherwise ZADD the threshold to the index and
      ZREM the id from `fired_alerts`. */
  method ResetAlert(store: Redis, id: string, marketOf: string -> Market, suffixOf: (int, int) -> Option<string>)
    modifies store`zsets
    ensures store.zsets == ResetEffect(old(store.zsets), store.records, id, marketOf, suffixOf)
  {
    var alertStr := store.Get(id);
    if alertStr.None? {
      store.ZRem(FiredAlerts, id);
      return;
    }
    var alert := alertStr.value;
    var marketType := marketOf(alert.s);
    var alertSuffix := suffixOf(alert.t, alert.c);
    if alertSuffix.None? || alertSuffix.value == "" {
      return;
    }
    store.ZAdd(AlertIndex(marketType, alertSuffix.value, alert.ss), alert.v, id);
    store.ZRem(FiredAlerts, id);
  }

  /** `alertsResetter()` at time `now`: the ids of `fired_alerts` scored in [0, now], each
      once, and the store after resetting each of them. `due` is the order they ran in. */
  method AlertsResetter(store: Redis, now: int, marketOf: string -> Market, suffixOf: (int, int) -> Option<string>)
    returns (ghost due: seq<string>)
    modifies store`zsets
    ensures Elems(due) == InRange(Members(old(store.zsets), FiredAlerts), 0, now) && Distinct(due)
    ensures store.zsets == ResetAll(old(store.zsets), store.records, due, marketOf, suffixOf)
  {
    var alertsForReset := store.ZRangeByScore(FiredAlerts, 0, now);
    for i := 0 to |alertsForReset|
      invariant store.zsets == ResetAll(old(store.zsets), store.records, alertsForReset[..i], marketOf, suffixOf)
    {
      assert alertsForReset[..i + 1][..i] == alertsForReset[..i];
      ResetAlert(store, alertsForReset[i], marketOf, suffixOf);
    }
    assert alertsForReset[..|alertsForReset|] == alertsForReset;
    due := alertsForReset;
  }

  /** The whole sweep at time `now`: every fired entry due by `now` ends as a reset of that
      id alone leaves it, and every entry due later, like every id not in `fired_alerts`,
      keeps its place and score everywhere. */
  lemma SweepEffect(z: ZSets, records: map<string, Alert>, due: seq<string>, now: int,
                    marketOf: string -> Market, suffixOf: (int, int) -> Option<string>)
    requires Elems(due) == InRange(Members(z, FiredAlerts), 0, now) && Distinct(due)
    ensures forall x | x in Members(z, FiredAlerts) && 0 <= Members(z, FiredAlerts)[x] <= now ::
              SameFor(ResetAll(z, records, due, marketOf, suffixOf), ResetEffect(z, records, x, marketOf, suffixOf), x)
    ensures forall x | !(x in Members(z, FiredAlerts) && 0 <= Members(z, FiredAlerts)[x] <= now) ::
              SameFor(ResetAll(z, records, due, marketOf, suffixOf), z, x)
  {
    forall x | x in Members(z, FiredAlerts) && 0 <= Members(z, FiredAlerts)[x] <= now
      ensures SameFor(ResetAll(z, records, due, marketOf, suffixOf), ResetEffect(z, records, x, marketOf, suffixOf), x)
    {
      assert x in Elems(due);
      ResetAllEach(z, records, due, marketOf, suffixOf, x);
    }
    forall x | !(x in Members(z, FiredAlerts) && 0 <= Members(z, FiredAlerts)[x] <= now)
      ensures SameFor(ResetAll(z, records, due, marketOf, suffixOf), z, x)
    {
      assert x !in Elems(due);
      ResetAllOthers(z, records, due, marketOf, suffixOf, x);
    }
  }
}
