/** What every segment's consumer shares (src/shared/watcher/consumers/consumer.ts): the re-arm
    delay, the notification text, `triggerAlert`, and the range-matching step each tick runs. */
module Consumer {
  import opened Wrappers
  import opened Collections
  import opened Store

  /** One minute in milliseconds. */
  const Minute: int := 1000 * 60

  /** The delays of reset options 1 to 5, in minutes. */
  const DelayMinutes: seq<int> := [1, 5, 15, 30, 60]

  /** `resetTime(option)` evaluated at clock value `now`: when a fired alert becomes due for
      re-arming. Option 0 has no time (`undefined`); 1..5 are the fixed delays; 6 and every
      other value are due at once. */
  function ResetTime(option: int, now: int): (r: Option<int>)
    ensures r.None? <==> option == 0
    ensures 1 <= option <= 5 ==> r == Some(now + Minute * DelayMinutes[option - 1])
    ensures option < 0 || 5 < option ==> r == Some(now)
    ensures r.Some? ==> now <= r.value <= now + 60 * Minute
  {
    match option
    case 0 => None
    case 1 => Some(now + 1000 * 60)
    case 2 => Some(now + 1000 * 60 * 5)
    case 3 => Some(now + 1000 * 60 * 15)
    case 4 => Some(now + 1000 * 60 * 30)
    case 5 => Some(now + 1000 * 60 * 60)
    case 6 => Some(now)
    case _ => Some(now)
  }

  /** A push notification's title and body. */
  datatype Payload = Payload(title: string, body: string)

  /** The word a price condition puts in the body. */
  function Direction(condition: int): string
  {
    if condition == 1 then "above" else "below"
  }

  /** `notificationPayload(alert, triggerValue)`; `show` is JavaScript's number-to-string
      conversion, which the model leaves abstract. Only price alerts (type 1) with condition
      1 (above) or 2 (below) get text; everything else gets an empty payload. */
  function NotificationPayload(alert: Alert, triggerValue: int, show: int -> string): (p: Payload)
    ensures p.title != "" <==> alert.t == 1 && (alert.c == 1 || alert.c == 2)
    ensures p.title == "" ==> p.body == ""
    ensures p.title != "" ==> p.title == alert.s + " Alert"
    ensures p.title != "" ==> p.body == show(triggerValue) + " - Price is " + Direction(alert.c) + " " + show(alert.v)
  {
    var payload := Payload("", "");
    match alert.t
    case 1 =>
      (match alert.c
       case 1 => Payload(alert.s + " Alert", show(triggerValue) + " - Price is above " + show(alert.v))
       case 2 => Payload(alert.s + " Alert", show(triggerValue) + " - Price is below " + show(alert.v))
       case _ => payload)
    case _ => payload
  }

  /** An above-alert and a below-alert on the same values never read alike. */
  lemma PayloadTellsConditionApart(alert: Alert, triggerValue: int, show: int -> string)
    requires alert.t == 1
    ensures NotificationPayload(alert.(c := 1), triggerValue, show).body
         != NotificationPayload(alert.(c := 2), triggerValue, show).body
  {
    var n := |show(triggerValue) + " - Price is "|;
    assert NotificationPayload(alert.(c := 1), triggerValue, show).body[n] == 'a';
    assert NotificationPayload(alert.(c := 2), triggerValue, show).body[n] == 'b';
  }

  /** One document written by `writeAlert(alertID, alert, value, timestamp)`. */
  datatype Notification = Notification(id: string, alert: Alert, value: int, time: int)

  /** The notification sink (`FirebaseService.writeAlert`): an append-only log. */
  class Firebase {
    var written: seq<Notification>

    constructor ()
      ensures written == []
    {
      written := [];
    }

    method WriteAlert(id: string, alert: Alert, value: int, time: int)
      modifies this`written
      ensures written == old(written) + [Notification(id, alert, value, time)]
    {
      written := written + [Notification(id, alert, value, time)];
    }
  }

  /** `{id, value}`: an alert to fire and the price that fired it. */
  datatype TriggerSet = TriggerSet(id: string, value: int)

  /** Triggering `id` records a re-arm time: the record exists and its reset option is not 0. */
  predicate Schedules(records: map<string, Alert>, id: string)
  {
    id in records && records[id].r != 0
  }

  /** The store effect of `triggerAlert(id, _)` at `now`: `fired_alerts` gets `id` scored with
      its re-arm time; no threshold index is touched. */
  function TriggerEffect(z: ZSets, records: map<string, Alert>, id: string, now: int): (r: ZSets)
    ensures forall k :: k != FiredAlerts ==> Members(r, k) == Members(z, k)
    ensures Schedules(records, id) ==>
      Members(r, FiredAlerts) == Members(z, FiredAlerts)[id := ResetTime(records[id].r, now).value]
    ensures !Schedules(records, id) ==> r == z
  {
    if Schedules(records, id) then Added(z, FiredAlerts, ResetTime(records[id].r, now).value, id) else z
  }

  /** The notification `triggerAlert` writes for `t`, if it gets that far. */
  function Note(records: map<string, Alert>, t: TriggerSet, now: int): seq<Notification>
  {
    if Schedules(records, t.id) then [Notification(t.id, records[t.id], t.value, now)] else []
  }

  /** `triggerAlert(alertID, value)`. A missing record makes `JSON.parse(null).r` throw before
      anything is written; a reset option of 0 hands `zadd` no score, which the model treats as
      a refused command, so nothing is written either. */
  method TriggerAlert(store: Redis, sink: Firebase, id: string, value: int, now: int)
    modifies store`zsets, sink`written
    ensures store.zsets == TriggerEffect(old(store.zsets), store.records, id, now)
    ensures sink.written == old(sink.written) + Note(store.records, TriggerSet(id, value), now)
  {
    var record := store.Get(id);
    if record.Some? {
      var alert := record.value;
      var resetTime := ResetTime(alert.r, now);
      if resetTime.Some? {
        store.ZAdd(FiredAlerts, resetTime.value, id);
        sink.WriteAlert(id, alert, value, now);
      }
    }
  }

  /** Running the triggers `ts` one after another. */
  function TriggersEffect(z: ZSets, records: map<string, Alert>, ts: seq<TriggerSet>, now: int): ZSets
  {
    if ts == [] then z
    else TriggerEffect(TriggersEffect(z, records, ts[..|ts| - 1], now), records, ts[|ts| - 1].id, now)
  }

  function Notes(records: map<string, Alert>, ts: seq<TriggerSet>, now: int): seq<Notification>
  {
    if ts == [] then [] else Notes(records, ts[..|ts| - 1], now) + Note(records, ts[|ts| - 1], now)
  }

  /** The ids of a list of triggers. */
  function Ids(ts: seq<TriggerSet>): set<string>
  {
    set t | t in ts :: t.id
  }

  /** Running a list of triggers changes only `fired_alerts`, where every triggered id whose
      record schedules a re-arm is added with its re-arm time and every other entry stays. */
  lemma {:induction false} TriggersEffectFired(z: ZSets, records: map<string, Alert>, ts: seq<TriggerSet>, now: int)
    ensures forall k :: k != FiredAlerts ==> Members(TriggersEffect(z, records, ts, now), k) == Members(z, k)
    ensures forall id :: id in Members(TriggersEffect(z, records, ts, now), FiredAlerts) <==>
      id in Members(z, FiredAlerts) || (id in Ids(ts) && Schedules(records, id))
    ensures forall id | id in Ids(ts) && Schedules(records, id) ::
      Members(TriggersEffect(z, records, ts, now), FiredAlerts)[id] == ResetTime(records[id].r, now).value
    ensures forall id | id !in Ids(ts) && id in Members(z, FiredAlerts) ::
      Members(TriggersEffect(z, records, ts, now), FiredAlerts)[id] == Members(z, FiredAlerts)[id]
  {
    if ts != [] {
      var init := ts[..|ts| - 1];
      TriggersEffectFired(z, records, init, now);
      assert Ids(ts) == Ids(init) + {ts[|ts| - 1].id} by {
        assert ts == init + [ts[|ts| - 1]];
      }
    }
  }

  /** Running the triggers one by one (`triggerSets.forEach(... triggerAlert ...)`). */
  method TriggerAll(store: Redis, sink: Firebase, ts: seq<TriggerSet>, now: int)
    modifies store`zsets, sink`written
    ensures store.zsets == TriggersEffect(old(store.zsets), store.records, ts, now)
    ensures sink.written == old(sink.written) + Notes(store.records, ts, now)
  {
    for i := 0 to |ts|
      invariant store.zsets == TriggersEffect(old(store.zsets), store.records, ts[..i], now)
      invariant sink.written == old(sink.written) + Notes(store.records, ts[..i], now)
    {
      assert ts[..i + 1][..i] == ts[..i];
      TriggerAlert(store, sink, ts[i].id, ts[i].value, now);
    }
    assert ts[..|ts|] == ts;
  }

  /** One range query of a tick, `zrangebyscore(key, 0, bound)`; each id it returns is
      removed from `key` and triggered with value `bound`. */
  datatype Query = Query(key: ZKey, bound: int)

  /** The ids a query returns. */
  function Matched(z: ZSets, q: Query): set<string>
  {
    InRange(Members(z, q.key), 0, q.bound)
  }

  /** The ZREMs one query queues, and the triggers it pushes. */
  function QueryRemovals(z: ZSets, q: Query): set<(ZKey, string)>
  {
    set id | id in Matched(z, q) :: (q.key, id)
  }

  function QueryTriggers(z: ZSets, q: Query): set<TriggerSet>
  {
    set id | id in Matched(z, q) :: TriggerSet(id, q.bound)
  }

  /** The ZREMs and the triggers of a list of queries, all evaluated against one store. */
  function Removals(z: ZSets, qs: seq<Query>): set<(ZKey, string)>
  {
    if qs == [] then {} else Removals(z, qs[..|qs| - 1]) + QueryRemovals(z, qs[|qs| - 1])
  }

  function Bag(z: ZSets, qs: seq<Query>): multiset<TriggerSet>
  {
    if qs == [] then multiset{} else Bag(z, qs[..|qs| - 1]) + multiset(QueryTriggers(z, qs[|qs| - 1]))
  }

  /** Some query of `qs` returns `id`. */
  predicate MatchedBy(z: ZSets, qs: seq<Query>, id: string)
  {
    exists q :: q in qs && id in Matched(z, q)
  }

  /** A list without repetitions holds each of its elements once. */
  lemma {:induction false} DistinctMultiset<T>(s: seq<T>)
    requires Distinct(s)
    ensures multiset(s) == multiset(Elems(s))
  {
    if s != [] {
      var init := s[..|s| - 1];
      assert s == init + [s[|s| - 1]];
      DistinctMultiset(init);
      assert Elems(s) == Elems(init) + {s[|s| - 1]};
      assert s[|s| - 1] !in Elems(init);
    }
  }

  /** The `zrangebyscore` + `forEach` block every consumer runs for one key: queue a ZREM and
      push a trigger for every id the query returns. */
  method Collect(store: Redis, q: Query) returns (dels: seq<(ZKey, string)>, ts: seq<TriggerSet>)
    ensures Elems(dels) == QueryRemovals(store.zsets, q)
    ensures multiset(ts) == multiset(QueryTriggers(store.zsets, q))
  {
    var ids := store.ZRangeByScore(q.key, 0, q.bound);
    dels, ts := [], [];
    for i := 0 to |ids|
      invariant Elems(dels) == set id | id in ids[..i] :: (q.key, id)
      invariant |ts| == i && forall j :: 0 <= j < i ==> ts[j] == TriggerSet(ids[j], q.bound)
    {
      assert ids[..i + 1] == ids[..i] + [ids[i]];
      assert Elems(dels + [(q.key, ids[i])]) == Elems(dels) + {(q.key, ids[i])};
      dels := dels + [(q.key, ids[i])];
      ts := ts + [TriggerSet(ids[i], q.bound)];
    }
    assert ids[..|ids|] == ids;
    assert Elems(ts) == QueryTriggers(store.zsets, q) by {
      forall t | t in QueryTriggers(store.zsets, q) ensures t in Elems(ts) {
        var j :| 0 <= j < |ids| && ids[j] == t.id;
        assert ts[j] == t;
      }
    }
    DistinctMultiset(ts);
  }

  /** The store a tick leaves: every matched (key, id) pair removed, then the triggers run. */
  function AfterTick(z: ZSets, records: map<string, Alert>, qs: seq<Query>, ts: seq<TriggerSet>, now: int): ZSets
  {
    TriggersEffect(RemovePairs(z, Removals(z, qs)), records, ts, now)
  }

  /** A tick queries threshold indexes only, never `fired_alerts`. */
  predicate IndexQueries(qs: seq<Query>)
  {
    forall q :: q in qs ==> q.key.AlertIndex?
  }

  /** Every key of `qs` is queried once. */
  predicate OneQueryPerKey(qs: seq<Query>)
  {
    forall i, j :: 0 <= i < j < |qs| ==> qs[i].key != qs[j].key
  }

  lemma {:induction false} RemovalsMembers(z: ZSets, qs: seq<Query>, k: ZKey, id: string)
    ensures (k, id) in Removals(z, qs) <==> exists q :: q in qs && q.key == k && id in Matched(z, q)
  {
    if qs != [] {
      var init := qs[..|qs| - 1];
      assert qs == init + [qs[|qs| - 1]];
      RemovalsMembers(z, init, k, id);
    }
  }

  /** Removing what some queries matched leaves a key none of them queried as it was, so a
      later query of that key matches the same ids. */
  lemma PruneKeepsUnqueried(z: ZSets, qs: seq<Query>, q: Query)
    requires forall q' :: q' in qs ==> q'.key != q.key
    ensures Members(RemovePairs(z, Removals(z, qs)), q.key) == Members(z, q.key)
    ensures QueryRemovals(RemovePairs(z, Removals(z, qs)), q) == QueryRemovals(z, q)
    ensures QueryTriggers(RemovePairs(z, Removals(z, qs)), q) == QueryTriggers(z, q)
  {
    forall id ensures (q.key, id) !in Removals(z, qs) {
      RemovalsMembers(z, qs, q.key, id);
    }
  }

  lemma {:induction false} BagMembers(z: ZSets, qs: seq<Query>, t: TriggerSet)
    ensures t in Bag(z, qs) <==> exists q :: q in qs && q.bound == t.value && t.id in Matched(z, q)
  {
    if qs != [] {
      var init := qs[..|qs| - 1];
      assert qs == init + [qs[|qs| - 1]];
      BagMembers(z, init, t);
    }
  }

  /** Each (query, matched id) pair contributes exactly one trigger: the multiplicity of a
      trigger is the number of queries that return its id with its value as bound. */
  lemma {:induction false} BagCount(z: ZSets, qs: seq<Query>, t: TriggerSet)
    ensures Bag(z, qs)[t] == |set i | 0 <= i < |qs| && qs[i].bound == t.value && t.id in Matched(z, qs[i])|
  {
    var hits := set i | 0 <= i < |qs| && qs[i].bound == t.value && t.id in Matched(z, qs[i]);
    if qs == [] {
      assert hits == {};
    } else {
      var n := |qs| - 1;
      var init := qs[..n];
      BagCount(z, init, t);
      var initHits := set i | 0 <= i < |init| && init[i].bound == t.value && t.id in Matched(z, init[i]);
      assert hits == if qs[n].bound == t.value && t.id in Matched(z, qs[n]) then initHits + {n} else initHits;
      assert multiset(QueryTriggers(z, qs[n]))[t] == if qs[n].bound == t.value && t.id in Matched(z, qs[n]) then 1 else 0;
    }
  }

  /** The ids a tick triggers are exactly the ids its queries match. */
  lemma TriggeredIds(z: ZSets, qs: seq<Query>, ts: seq<TriggerSet>)
    requires multiset(ts) == Bag(z, qs)
    ensures forall id :: id in Ids(ts) <==> MatchedBy(z, qs, id)
  {
    forall id ensures id in Ids(ts) <==> MatchedBy(z, qs, id) {
      if id in Ids(ts) {
        var t :| t in ts && t.id == id;
        assert t in multiset(ts);
        BagMembers(z, qs, t);
      }
      if MatchedBy(z, qs, id) {
        var q :| q in qs && id in Matched(z, q);
        BagMembers(z, qs, TriggerSet(id, q.bound));
        assert TriggerSet(id, q.bound) in multiset(ts);
      }
    }
  }

  /** A tick leaves a queried index holding exactly its members scored outside [0, bound],
      with their scores. */
  lemma TickPrunesQueriedKey(z: ZSets, records: map<string, Alert>, qs: seq<Query>, ts: seq<TriggerSet>, now: int, q: Query)
    requires q in qs && q.key.AlertIndex? && OneQueryPerKey(qs)
    ensures forall id :: id in Members(AfterTick(z, records, qs, ts, now), q.key) <==>
      id in Members(z, q.key) && !(0 <= Members(z, q.key)[id] <= q.bound)
    ensures forall id | id in Members(AfterTick(z, records, qs, ts, now), q.key) ::
      Members(AfterTick(z, records, qs, ts, now), q.key)[id] == Members(z, q.key)[id]
  {
    var pruned := RemovePairs(z, Removals(z, qs));
    TriggersEffectFired(pruned, records, ts, now);
    forall id ensures (q.key, id) in Removals(z, qs) <==> id in Matched(z, q) {
      RemovalsMembers(z, qs, q.key, id);
      if (q.key, id) in Removals(z, qs) {
        var q' :| q' in qs && q'.key == q.key && id in Matched(z, q');
        var i :| 0 <= i < |qs| && qs[i] == q;
        var j :| 0 <= j < |qs| && qs[j] == q';
        assert i == j;
      }
    }
  }

  /** A tick leaves every index it does not query as it was. */
  lemma TickKeepsOtherKeys(z: ZSets, records: map<string, Alert>, qs: seq<Query>, ts: seq<TriggerSet>, now: int, k: ZKey)
    requires k != FiredAlerts && forall q :: q in qs ==> q.key != k
    ensures Members(AfterTick(z, records, qs, ts, now), k) == Members(z, k)
  {
    var pruned := RemovePairs(z, Removals(z, qs));
    TriggersEffectFired(pruned, records, ts, now);
    forall id ensures (k, id) !in Removals(z, qs) {
      RemovalsMembers(z, qs, k, id);
    }
  }

  /** A tick adds to `fired_alerts` exactly the matched ids whose records schedule a re-arm,
      and keeps every other entry. */
  lemma TickFires(z: ZSets, records: map<string, Alert>, qs: seq<Query>, ts: seq<TriggerSet>, now: int)
    requires IndexQueries(qs) && multiset(ts) == Bag(z, qs)
    ensures forall id :: id in Members(AfterTick(z, records, qs, ts, now), FiredAlerts) <==>
      id in Members(z, FiredAlerts) || (MatchedBy(z, qs, id) && Schedules(records, id))
  {
    var pruned := RemovePairs(z, Removals(z, qs));
    TriggersEffectFired(pruned, records, ts, now);
    TriggeredIds(z, qs, ts);
    forall id ensures (FiredAlerts, id) !in Removals(z, qs) {
      RemovalsMembers(z, qs, FiredAlerts, id);
    }
  }

  /** The mutual exclusion a tick establishes: a matched id is gone from the index that
      matched it and, when its record schedules a re-arm, sits in `fired_alerts`. */
  lemma TickMovesToFired(z: ZSets, records: map<string, Alert>, qs: seq<Query>, ts: seq<TriggerSet>, now: int, q: Query, id: string)
    requires IndexQueries(qs) && multiset(ts) == Bag(z, qs)
    requires q in qs && id in Matched(z, q)
    ensures id !in Members(AfterTick(z, records, qs, ts, now), q.key)
    ensures Schedules(records, id) ==> id in Members(AfterTick(z, records, qs, ts, now), FiredAlerts)
  {
    var pruned := RemovePairs(z, Removals(z, qs));
    TriggersEffectFired(pruned, records, ts, now);
    RemovalsMembers(z, qs, q.key, id);
    TickFires(z, records, qs, ts, now);
  }

  /** Replaying the same queries right after a tick matches nothing: no ZREM, no trigger. */
  lemma TickIdempotent(z: ZSets, records: map<string, Alert>, qs: seq<Query>, ts: seq<TriggerSet>, now: int)
    requires IndexQueries(qs)
    ensures Removals(AfterTick(z, records, qs, ts, now), qs) == {}
    ensures Bag(AfterTick(z, records, qs, ts, now), qs) == multiset{}
  {
    var after := AfterTick(z, records, qs, ts, now);
    var pruned := RemovePairs(z, Removals(z, qs));
    TriggersEffectFired(pruned, records, ts, now);
    forall q | q in qs ensures Matched(after, q) == {} {
      forall id | id in Matched(after, q) ensures false {
        RemovalsMembers(z, qs, q.key, id);
      }
    }
    if Removals(after, qs) != {} {
      var p :| p in Removals(after, qs);
      RemovalsMembers(after, qs, p.0, p.1);
    }
    forall t ensures t !in Bag(after, qs) {
      BagMembers(after, qs, t);
    }
  }
}
