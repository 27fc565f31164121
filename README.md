# Raven price-alert pipeline, in Dafny

This project models the price-alert pipeline of the Raven API server: the part that turns live market
data into alert notifications and keeps clients subscribed to the symbols they watch.

- **Store** (`store.dfy`). The key-value store the pipeline works against, as a class `Redis`:
  - the threshold indexes `alerts_<market>_price_<over|under>:<symbol>` and the `fired_alerts`
    sorted set, as one map from structured keys to id → score maps;
  - the `alerts:<id>` records;
  - the `<market>_watchlist` sets;
  - the `<market>_watchers:<symbol>` hashes;
  - the commands the store currently refuses (`hgetall`, `srem`), whose failure the
    unsubscribe path catches.

  Each store command the pipeline uses is a method over these fields (`zrangebyscore`, `zadd`,
  `zrem`, a `multi` of `zrem`s, `smembers`, `srem`, `hgetall`, `get`).
- **Consumers** (`consumer.dfy`, `trackers.dfy`, `crypto_consumer.dfy`, `stocks_consumer.dfy`,
  `forex_consumer.dfy`).
  - The shared consumer: `resetTime`, `notificationPayload` and `triggerAlert`.
  - The three segment consumers:
    - crypto tracks the lowest trade price per pair in two dictionaries and matches both at every
      tick;
    - stocks matches every aggregate as it arrives;
    - forex tracks the lowest bid per pair and matches it at every tick, then clears it.
  - A match is a range query `[0, value]` on an index. The matched ids are removed, then triggered.
    A tick is specified as the function `AfterTick` of the store before it and of its queries.
- **Re-arm sweep** (`tasks.dfy`). `resetAlert` and `alertsResetter` move due ids from
  `fired_alerts` back into their threshold index.
- **Streaming connections** (`watcher.dfy`, `crypto_watcher.dfy`, `stocks_watcher.dfy`,
  `forex_watcher.dfy`).
  - The shared connection state machine: open, auth, resubscribe, pong, close and reconnect, ping,
    dropping `status` events.
  - Per segment: event dispatch, the subscribe and unsubscribe control frames, and the gate that
    unsubscribes only once no client watches a symbol.
- **Client gateway** (`gateway.dfy`). Room membership: join after authentication, into the
  upper-cased room; leave; emit to a room or to every client.
- **REST URIs** (`polygon.dfy`). `buildURI`, the routes and parameters of `tickers` and
  `forexSnapshotSingle`, and the projections made by `cryptoLastTrade` and `cryptoPrev`.

Methods that change state are proved against specification functions, such as `AfterTick`,
`TriggersEffect`, `ResetEffect`, `Lowered`/`Track`, `Relayed`/`Watcher.Handled` and `URI`. The lemmas then
state what the source promises about those functions.

## Behaviour of the code worth knowing
- Crypto queries each pair's "over" index for thresholds in `[0, list_price_low[pair]]`
  (src/shared/watcher/consumers/crypto_consumer.ts:74-79). Its "under" index is queried for
  `[0, list_price_high[pair]]` (crypto_consumer.ts:90-95).
- `consumeTrade` updates `list_price_high` only when the price is below the stored one
  (crypto_consumer.ts:124-127), exactly as it updates `list_price_low` (119-122). Both start
  empty (52-53), so the two dictionaries are always equal. `CryptoConsumer.CryptoConsumer.Valid`
  carries `high == low` and the same key order, and `ConsumeTrade`, `HandleMessage` and `OnFrame`
  state it. `CryptoConsumer.HighTrackerHoldsLowest` shows each entry is the pair's lowest price.
- Crypto's `nextTick` (crypto_consumer.ts:69-112) never clears its dictionaries. A second tick
  without a re-arm in between fires nothing new (`CryptoConsumer.CryptoSecondTickSilent`).
- Forex's `nextTick` clears `lowestBid` after its loop of queries (forex_consumer.ts:41). It
  queries only the "over" indexes (forex_consumer.ts:31-32).
- Stocks matches each aggregate message as it arrives (stocks_consumer.ts:55-91). Its
  `nextTick` is empty (stocks_consumer.ts:50-53).
- Crypto subscribes to `XT,XQ` (src/shared/watcher/clusters/crypto_watcher.ts:60) but
  unsubscribes from `XQ,XT,XA` (crypto_watcher.ts:72).
- `unsubscribeFrom` sends the unsubscribe frame before its `srem` (crypto_watcher.ts:72-73). A
  failing `srem` lands in the `catch` after the frame has gone out, and the symbol stays in the
  watchlist (`Watcher.Watcher.Unsubscribe`).

## Model
| member | source | states |
|---|---|---|
| Store.KeyNamesApart | src/shared/watcher/consumers/crypto_consumer.ts:78-94 | different keys have different key strings `alerts_<market>_<suffix>:<symbol>` / `fired_alerts` when no suffix holds `:`, so the structured keys lose nothing |
| Store.SplitsApart | src/shared/watcher/consumers/crypto_consumer.ts:78-94 | `<suffix>:<symbol>` determines both parts when the suffix holds no `:` |
| Store.RemovePairs | src/shared/watcher/consumers/crypto_consumer.ts:70-106 | a batch of `zrem`s removes exactly the queued (key, id) pairs; every key stays and surviving scores are unchanged |
| Store.RemovePairsTwice | src/shared/watcher/consumers/forex_consumer.ts:36-43 | removing one batch after another is removing their union (sequential `zrem`s equal one `multi`) |
| Store.Unwatched | src/shared/watcher/clusters/crypto_watcher.ts:73 | `srem` drops the symbol from its market's watchlist and leaves the other markets' lists alone |
| Store.Redis.Get | src/shared/watcher/consumers/consumer.ts:90 | `get alerts:<id>` finds the record exactly when one is stored |
| Store.Redis.ZRangeByScore | src/shared/watcher/consumers/crypto_consumer.ts:79 | returns each id scored in `[lo, hi]` once, and no other id |
| Store.Redis.ZAdd | src/shared/watcher/consumers/consumer.ts:94 | sets the id's score in that key only |
| Store.Redis.ZRem | src/shared/tasks/tasks.service.ts:38 | removes the id from that key only |
| Store.Redis.ZRemAll | src/shared/watcher/consumers/crypto_consumer.ts:106 | executing the queued `multi` removes exactly its pairs |
| Store.Redis.SMembers | src/shared/watcher/clusters/watcher.ts:48 | lists each watchlist member once |
| Store.Redis.AfterSRem | src/shared/watcher/clusters/crypto_watcher.ts:73 | the market's watchlist loses the symbol unless the store refuses `srem`; other markets' lists never change |
| Store.Redis.SRem | src/shared/watcher/clusters/crypto_watcher.ts:73 | fails exactly when the store refuses `srem`, changing nothing; otherwise the watchlist loses the symbol |
| Store.Redis.HGetAll | src/shared/watcher/clusters/crypto_watcher.ts:66 | fails exactly when the store refuses `hgetall`; otherwise finds the watchers hash exactly when one exists |
| Consumer.ResetTime | src/shared/watcher/consumers/consumer.ts:67-87 | undefined exactly for option 0; options 1–5 give now + 1, 5, 15, 30, 60 minutes; 6 and every other option give now; a defined time is within [now, now + 60 min] |
| Consumer.NotificationPayload | src/shared/watcher/consumers/consumer.ts:37-65 | title non-empty exactly for type 1 with condition 1 or 2; then title `<s> Alert` and body `<trigger> - Price is above/below <v>`; otherwise both empty |
| Consumer.PayloadTellsConditionApart | src/shared/watcher/consumers/consumer.ts:50-58 | for a price alert the bodies for conditions 1 and 2 differ |
| Consumer.Firebase.WriteAlert | src/shared/watcher/consumers/consumer.ts:97 | appends exactly one notification (id, alert, value, time) to the log |
| Consumer.TriggerEffect | src/shared/watcher/consumers/consumer.ts:89-98 | only `fired_alerts` changes: a stored alert with a defined reset time gets that time as score; otherwise the store is unchanged; no threshold index is touched |
| Consumer.TriggerAlert | src/shared/watcher/consumers/consumer.ts:89-98 | the store becomes `TriggerEffect` and the log gains the alert's one notification at `now` |
| Consumer.TriggersEffectFired | src/shared/watcher/consumers/crypto_consumer.ts:108-110 | after triggering a list: non-fired keys unchanged; an id is fired iff it was, or was triggered and schedulable; triggered ids carry their reset time, others their old score |
| Consumer.TriggerAll | src/shared/watcher/consumers/crypto_consumer.ts:108-110 | triggering in order yields `TriggersEffect` and the notifications in order |
| Consumer.Collect | src/shared/watcher/consumers/crypto_consumer.ts:79-87 | queues exactly the (key, id) pairs scored in `[0, bound]` and one trigger (id, bound) per such id |
| Consumer.RemovalsMembers | src/shared/watcher/consumers/crypto_consumer.ts:74-104 | (key, id) is queued iff some query on that key matched the id |
| Consumer.PruneKeepsUnqueried | src/shared/watcher/consumers/forex_consumer.ts:28-38 | removals queued for other keys do not change what a query on an untouched key sees |
| Consumer.BagMembers | src/shared/watcher/consumers/crypto_consumer.ts:81-87 | a trigger (id, v) is produced iff some query with bound v matched the id |
| Consumer.BagCount | src/shared/watcher/consumers/stocks_consumer.ts:73-86 | each trigger occurs once per query with its value that matched its id |
| Consumer.TriggeredIds | src/shared/watcher/consumers/crypto_consumer.ts:108-110 | the triggered ids are exactly the matched ids |
| Consumer.TickPrunesQueriedKey | src/shared/watcher/consumers/crypto_consumer.ts:78-88 | after a tick a queried index keeps exactly its ids scored outside `[0, bound]`, with their scores |
| Consumer.TickKeepsOtherKeys | src/shared/watcher/consumers/crypto_consumer.ts:69-112 | an unqueried index key is unchanged by a tick |
| Consumer.TickFires | src/shared/watcher/consumers/crypto_consumer.ts:106-110 | after a tick an id is fired iff it was, or it matched and is schedulable |
| Consumer.TickMovesToFired | src/shared/watcher/consumers/consumer.ts:89-98 | a matched id leaves its index and, when schedulable, is in `fired_alerts`: it is never in both |
| Consumer.TickIdempotent | src/shared/watcher/consumers/crypto_consumer.ts:69-112 | repeating the same queries on the result matches and removes nothing |
| Trackers.Lowered | src/shared/watcher/consumers/crypto_consumer.ts:119-122 | the first update sets the pair; later ones keep the minimum; other pairs unchanged |
| Trackers.LoweredKeepsOrder | src/shared/watcher/consumers/forex_consumer.ts:52-55 | the insertion-ordered key list stays duplicate-free and equal to the dictionary's keys |
| Trackers.TrackKeepsOrder | src/shared/watcher/consumers/crypto_consumer.ts:74 | the same for a run of updates |
| Trackers.TrackAppend | src/shared/watcher/consumers/crypto_consumer.ts:114-128 | folding two runs of trades is folding one after the other |
| Trackers.TrackKeysAppend | src/shared/watcher/consumers/crypto_consumer.ts:114-128 | the same for the key order |
| Trackers.TrackIsMinimum | src/shared/watcher/consumers/forex_consumer.ts:48-58 | from empty, a pair is tracked iff some update names it, and its value is one of its updates and no greater than any of them |
| Trackers.TrackerQueries | src/shared/watcher/consumers/crypto_consumer.ts:74-79 | one query per tracked pair, in key order, on that pair's index with its tracked value |
| Trackers.TrackerQueriesDistinct | src/shared/watcher/consumers/crypto_consumer.ts:78-94 | the over and under queries of a tick hit distinct index keys |
| Trackers.QueriesAppend | src/shared/watcher/consumers/crypto_consumer.ts:70-106 | two query lists queue the union of their removals and the sum of their triggers |
| Trackers.CollectTracker | src/shared/watcher/consumers/crypto_consumer.ts:74-104 | the loop over a dictionary queues exactly `Removals` and produces exactly `Bag` of its queries |
| CryptoConsumer.CryptoTickPrunes | src/shared/watcher/consumers/crypto_consumer.ts:74-104 | per tracked pair, the over index keeps only ids above `low[pair]` and the under index only ids above `high[pair]` |
| CryptoConsumer.CryptoQueriedKeys | src/shared/watcher/consumers/crypto_consumer.ts:78-94 | every tick query is on the crypto over index of a low pair or the crypto under index of a high pair |
| CryptoConsumer.CryptoTickKeeps | src/shared/watcher/consumers/crypto_consumer.ts:69-112 | every other key is unchanged by the tick |
| CryptoConsumer.CryptoTickFires | src/shared/watcher/consumers/crypto_consumer.ts:106-110 | after the tick an id is fired iff it was, or a tick query matched it and it is schedulable |
| CryptoConsumer.CryptoConsumer.constructor | src/shared/watcher/consumers/crypto_consumer.ts:45-54 | both dictionaries and their key orders start empty, so `list_price_high == list_price_low` holds from the start |
| CryptoConsumer.CryptoConsumer.ConsumeTrade | src/shared/watcher/consumers/crypto_consumer.ts:114-128 | both dictionaries are lowered by the trade's price, only at its pair; afterwards `list_price_high == list_price_low`, key order included |
| CryptoConsumer.CryptoConsumer.ConsumeAggregate | src/shared/watcher/consumers/crypto_consumer.ts:130-135 | changes nothing |
| CryptoConsumer.CryptoConsumer.NextTick | src/shared/watcher/consumers/crypto_consumer.ts:69-112 | removes all matches first, then triggers each once per match; the store is `AfterTick` of the over and under queries; the dictionaries are kept |
| CryptoConsumer.CryptoSecondTickSilent | src/shared/watcher/consumers/crypto_consumer.ts:69-112 | a second tick on the kept dictionaries, with no re-arm in between, triggers nothing |
| CryptoConsumer.HighTrackerHoldsLowest | src/shared/watcher/consumers/crypto_consumer.ts:124-127 | the high tracker, like the low one it equals, holds the minimum of a pair's trades: trades 1 then 2 leave it at 1 |
| StocksConsumer.AggregateSplit | src/shared/watcher/consumers/stocks_consumer.ts:64-86 | an aggregate's removals and triggers are those of its over query at `l` plus its under query at `h` |
| StocksConsumer.AggregateEffect | src/shared/watcher/consumers/stocks_consumer.ts:55-91 | the over index keeps only ids above `l` and the under index only ids above `h`; other indexes unchanged; the fired set grows by the schedulable matches; each match triggers once per query, with `l` or `h` |
| StocksConsumer.AggregateReplaySilent | src/shared/watcher/consumers/stocks_consumer.ts:64-88 | replaying the same aggregate, with no re-arm in between, matches nothing |
| StocksConsumer.StocksConsumer.constructor | src/shared/watcher/consumers/stocks_consumer.ts:42-48 | binds the store and the notification sink |
| StocksConsumer.StocksConsumer.NextTick | src/shared/watcher/consumers/stocks_consumer.ts:50-53 | changes nothing |
| StocksConsumer.StocksConsumer.ConsumeAggregate | src/shared/watcher/consumers/stocks_consumer.ts:55-91 | the store becomes `AfterTick` of the aggregate's two queries, and the triggers are their `Bag` |
| ForexConsumer.ForexMatchedBy | src/shared/watcher/consumers/forex_consumer.ts:28-38 | an id matches iff it is scored in `[0, lowestBid[pair]]` in some tracked pair's over index |
| ForexConsumer.ForexTickEffect | src/shared/watcher/consumers/forex_consumer.ts:21-46 | each tracked pair's over index keeps only ids above its bid; every other key, under indexes included, is unchanged; the fired set grows by the schedulable matches |
| ForexConsumer.ForexIdleTick | src/shared/watcher/consumers/forex_consumer.ts:21-46 | a tick with no bids triggers nothing and leaves the store unchanged |
| ForexConsumer.PruneEach | src/shared/watcher/consumers/forex_consumer.ts:28-39 | per-pair removal in the loop equals one batch of all the tick's removals; its triggers are the tick's `Bag` |
| ForexConsumer.ForexConsumer.constructor | src/shared/watcher/consumers/forex_consumer.ts:13-19 | `lowestBid` starts empty |
| ForexConsumer.ForexConsumer.ConsumerQuote | src/shared/watcher/consumers/forex_consumer.ts:48-58 | `lowestBid` is lowered by the bid, only at its pair |
| ForexConsumer.ForexConsumer.NextTick | src/shared/watcher/consumers/forex_consumer.ts:21-46 | the store is `AfterTick` of the over queries; `lowestBid` is empty afterwards |
| Tasks.RearmKey | src/shared/tasks/tasks.service.ts:44-51 | a key exists iff the suffix is defined and non-empty, and it is `alerts_<market of s>_<suffix>:<ss>` |
| Tasks.ResetEffect | src/shared/tasks/tasks.service.ts:34-55 | no record: only removed from `fired_alerts`; no suffix: nothing changes; otherwise added to its index with score `v` and removed from `fired_alerts`; other ids untouched |
| Tasks.ResetExclusive | src/shared/tasks/tasks.service.ts:51-52 | after a successful reset the id is in its index and not in `fired_alerts` |
| Tasks.ResetIdempotent | src/shared/tasks/tasks.service.ts:51-52 | resetting twice is resetting once |
| Tasks.ResetLocal | src/shared/tasks/tasks.service.ts:34-55 | the outcome for an id depends only on that id's entries |
| Tasks.ResetAllOthers | src/shared/tasks/tasks.service.ts:63-65 | ids not due keep all their entries |
| Tasks.ResetAllEach | src/shared/tasks/tasks.service.ts:63-65 | each due id ends as a single reset would leave it |
| Tasks.ResetAlert | src/shared/tasks/tasks.service.ts:34-55 | the store becomes `ResetEffect` |
| Tasks.AlertsResetter | src/shared/tasks/tasks.service.ts:58-69 | resets exactly the fired ids scored in `[0, now]`, each once |
| Tasks.SweepEffect | src/shared/tasks/tasks.service.ts:60-65 | each due id ends as its own reset leaves it; every other id is untouched |
| Watcher.Relay | src/shared/watcher/clusters/crypto_watcher.ts:41 | a broadcast carries the event type, its symbol as room, and the message |
| Watcher.Delegate.SendMessage | src/shared/watcher/clusters/crypto_watcher.ts:41 | appends one broadcast |
| Watcher.ChannelsLength | src/shared/watcher/clusters/stocks_watcher.ts:59 | a channel list is as long as its event names plus one `.S` per name and the commas between them |
| Watcher.ChannelsInjective | src/shared/watcher/clusters/stocks_watcher.ts:59 | one event list names different socket symbols differently |
| Watcher.ChannelsSuffix | src/shared/watcher/clusters/stocks_watcher.ts:59 | a channel list ends with its socket symbol |
| Watcher.ControlFrameInjective | src/shared/watcher/clusters/watcher.ts:46 | equal control frames for one action carry equal parameters |
| Watcher.Routed | src/shared/watcher/clusters/watcher.ts:68-78 | a message reaches `handleMessage` iff it is in the frame and not `status` |
| Watcher.RoutedAppend | src/shared/watcher/clusters/watcher.ts:70-77 | routing keeps array order across frames |
| Watcher.HandledStep | src/shared/watcher/clusters/watcher.ts:70-77 | one more message of a frame adds its own output after the earlier ones' |
| Watcher.HandledAppend | src/shared/watcher/clusters/watcher.ts:70-77 | the output of two frames is that of each, in order |
| Watcher.RoutingKeeps | src/shared/watcher/clusters/watcher.ts:68-78 | when a `status` event yields nothing, dropping `status` events loses nothing |
| Watcher.SkipStep | src/shared/watcher/clusters/watcher.ts:70-77 | skipping a `status` event and handling any other extends the output by that message's part |
| Watcher.Watcher.constructor | src/shared/watcher/clusters/watcher.ts:20-38 | URL `wss://socket.polygon.io/<market>`; one connection, not yet alive, nothing sent |
| Watcher.Watcher.SendWebsocketMessage | src/shared/watcher/clusters/watcher.ts:88-90 | appends the frame |
| Watcher.Watcher.OnOpen | src/shared/watcher/clusters/watcher.ts:42-52 | alive; the auth frame first, then one subscribe frame per watchlist member, each once |
| Watcher.Watcher.Unsubscribe | src/shared/watcher/clusters/crypto_watcher.ts:63-79 | when `hgetall` succeeds and finds no watchers hash, sends the frame, then drops the symbol from the watchlist unless `srem` fails into the `catch`; when `hgetall` fails or finds a hash, changes nothing |
| Watcher.Watcher.OnPong | src/shared/watcher/clusters/watcher.ts:54-58 | changes nothing |
| Watcher.Watcher.OnClose | src/shared/watcher/clusters/watcher.ts:60-66 | not alive, and one more connection opened |
| Watcher.Watcher.Ping | src/shared/watcher/clusters/watcher.ts:82-86 | pings exactly when alive |
| CryptoWatcher.SubscribeFrame | src/shared/watcher/clusters/crypto_watcher.ts:58-61 | `{"action":"subscribe","params":"XT.S,XQ.S"}` |
| CryptoWatcher.UnsubscribeFrame | src/shared/watcher/clusters/crypto_watcher.ts:72 | `{"action":"unsubscribe","params":"XQ.S,XT.S,XA.S"}` |
| CryptoWatcher.FramesTellSymbolsApart | src/shared/watcher/clusters/crypto_watcher.ts:60-72 | different socket symbols give different frames |
| CryptoWatcher.Relayed | src/shared/watcher/clusters/crypto_watcher.ts:31-56 | relays exactly `XQ`, `XT`, `XA`, once each, as they came; nothing for a missing message |
| CryptoWatcher.Trade | src/shared/watcher/clusters/crypto_watcher.ts:43-47 | only `XT` reaches the tracker, as (pair, price) |
| CryptoWatcher.RoutingLosesNothing | src/shared/watcher/clusters/watcher.ts:68-78 | dropping `status` events loses no broadcast and no trade |
| CryptoWatcher.CryptoWatcher.constructor | src/shared/watcher/clusters/crypto_watcher.ts:15-25 | a fresh connection and a fresh consumer with empty, equal dictionaries |
| CryptoWatcher.CryptoWatcher.NextTick | src/shared/watcher/clusters/crypto_watcher.ts:27-29 | runs the consumer's tick |
| CryptoWatcher.CryptoWatcher.HandleMessage | src/shared/watcher/clusters/crypto_watcher.ts:31-56 | broadcasts `Relayed(msg)`; an `XT` lowers both dictionaries, which stay equal; nothing else changes |
| CryptoWatcher.CryptoWatcher.OnFrame | src/shared/watcher/clusters/watcher.ts:68-78 | broadcasts for the whole frame in order, and the dictionaries fold all its trades and stay equal |
| CryptoWatcher.CryptoWatcher.SubscribeTo | src/shared/watcher/clusters/crypto_watcher.ts:58-61 | sends the subscribe frame of the symbol's socket symbol |
| CryptoWatcher.CryptoWatcher.UnsubscribeFrom | src/shared/watcher/clusters/crypto_watcher.ts:63-79 | the unsubscribe gate with the crypto frame and `crypto_watchlist` |
| CryptoWatcher.CryptoWatcher.OnOpen | src/shared/watcher/clusters/watcher.ts:42-52 | auth, then the crypto subscribe frame of every watchlist member |
| StocksWatcher.SubscribeFrame | src/shared/watcher/clusters/stocks_watcher.ts:57-60 | `{"action":"subscribe","params":"Q.S,T.S,A.S"}` |
| StocksWatcher.UnsubscribeFrame | src/shared/watcher/clusters/stocks_watcher.ts:71 | `{"action":"unsubscribe","params":"Q.S,T.S,A.S"}` |
| StocksWatcher.FramesTellSymbolsApart | src/shared/watcher/clusters/stocks_watcher.ts:59-71 | different socket symbols give different frames |
| StocksWatcher.Relayed | src/shared/watcher/clusters/stocks_watcher.ts:31-55 | relays exactly `T`, `Q`, `A`, once each, as they came |
| StocksWatcher.Aggregate | src/shared/watcher/clusters/stocks_watcher.ts:47-51 | only `A` reaches the consumer |
| StocksWatcher.RoutingLosesNothing | src/shared/watcher/clusters/watcher.ts:68-78 | dropping `status` events loses no broadcast and no aggregate |
| StocksWatcher.StocksWatcher.constructor | src/shared/watcher/clusters/stocks_watcher.ts:15-25 | a fresh connection and a fresh consumer |
| StocksWatcher.StocksWatcher.NextTick | src/shared/watcher/clusters/stocks_watcher.ts:27-29 | changes nothing |
| StocksWatcher.StocksWatcher.HandleMessage | src/shared/watcher/clusters/stocks_watcher.ts:31-55 | broadcasts `Relayed(msg)`; an `A` runs one matching step on the store, with its notifications |
| StocksWatcher.StocksWatcher.OnFrame | src/shared/watcher/clusters/watcher.ts:68-78 | broadcasts for the whole frame in order; the store passes through one matching step per aggregate, in order |
| StocksWatcher.StocksWatcher.Dispatch | src/shared/watcher/clusters/watcher.ts:70-77 | one message of a frame extends the broadcasts, the run of matching steps and the notifications |
| StocksWatcher.StocksWatcher.SubscribeTo | src/shared/watcher/clusters/stocks_watcher.ts:57-60 | sends the stocks subscribe frame |
| StocksWatcher.StocksWatcher.UnsubscribeFrom | src/shared/watcher/clusters/stocks_watcher.ts:62-78 | the unsubscribe gate with the stocks frame and `stocks_watchlist` |
| StocksWatcher.StocksWatcher.OnOpen | src/shared/watcher/clusters/watcher.ts:42-52 | auth, then the stocks subscribe frame of every watchlist member |
| ForexWatcher.SubscribeFrame | src/shared/watcher/clusters/forex_watcher.ts:49-52 | `{"action":"subscribe","params":"C.S,CA.S"}` |
| ForexWatcher.UnsubscribeFrame | src/shared/watcher/clusters/forex_watcher.ts:63 | `{"action":"unsubscribe","params":"C.S,CA.S"}` |
| ForexWatcher.FramesTellSymbolsApart | src/shared/watcher/clusters/forex_watcher.ts:51-63 | different socket symbols give different frames |
| ForexWatcher.Relayed | src/shared/watcher/clusters/forex_watcher.ts:28-47 | relays exactly `C` and `CA`, once each, as they came |
| ForexWatcher.Quote | src/shared/watcher/clusters/forex_watcher.ts:34-38 | only `C` reaches the consumer, as (pair, bid) |
| ForexWatcher.RoutingLosesNothing | src/shared/watcher/clusters/watcher.ts:68-78 | dropping `status` events loses no broadcast and no quote |
| ForexWatcher.ForexWatcher.constructor | src/shared/watcher/clusters/forex_watcher.ts:14-22 | a fresh connection and a fresh consumer with no bids |
| ForexWatcher.ForexWatcher.NextTick | src/shared/watcher/clusters/forex_watcher.ts:24-26 | runs the consumer's tick, which clears `lowestBid` |
| ForexWatcher.ForexWatcher.HandleMessage | src/shared/watcher/clusters/forex_watcher.ts:28-47 | broadcasts `Relayed(msg)`; a `C` lowers its pair's bid |
| ForexWatcher.ForexWatcher.OnFrame | src/shared/watcher/clusters/watcher.ts:68-78 | broadcasts for the whole frame in order; `lowestBid` folds all its quotes |
| ForexWatcher.ForexWatcher.SubscribeTo | src/shared/watcher/clusters/forex_watcher.ts:49-52 | sends the forex subscribe frame |
| ForexWatcher.ForexWatcher.UnsubscribeFrom | src/shared/watcher/clusters/forex_watcher.ts:54-70 | the unsubscribe gate with the forex frame and `forex_watchlist` |
| ForexWatcher.ForexWatcher.OnOpen | src/shared/watcher/clusters/watcher.ts:42-52 | auth, then the forex subscribe frame of every watchlist member |
| Gateway.Joined | src/shared/watcher/watcher.gateway.ts:38 | the client is added to that room and every other room is unchanged |
| Gateway.Left | src/shared/watcher/watcher.gateway.ts:44 | the client is removed from that room and every other room is unchanged |
| Gateway.LeaveUndoesJoin | src/shared/watcher/watcher.gateway.ts:38-44 | leaving a room just joined restores every room |
| Gateway.JoinLeaveIdempotent | src/shared/watcher/watcher.gateway.ts:38-44 | joining twice is joining once; leaving twice is leaving once |
| Gateway.StockEvent | src/shared/watcher/watcher.gateway.ts:68-72 | the event name is `<kind>.<sym>` |
| Gateway.StockEventsApart | src/shared/watcher/watcher.gateway.ts:67-73 | trade and quote event names determine the symbol, and never coincide |
| Gateway.WatcherGateway.constructor | src/shared/watcher/watcher.gateway.ts:20 | no rooms, no clients, nothing emitted |
| Gateway.WatcherGateway.HandleMessage | src/shared/watcher/watcher.gateway.ts:22-26 | `msgToClient` with the payload to every client |
| Gateway.WatcherGateway.HandleJoin | src/shared/watcher/watcher.gateway.ts:28-39 | joins the upper-cased room iff a symbol is given and the token authenticates; otherwise the rooms are unchanged |
| Gateway.WatcherGateway.HandleLeave | src/shared/watcher/watcher.gateway.ts:41-45 | leaves the upper-cased room |
| Gateway.WatcherGateway.SendMessage | src/shared/watcher/watcher.gateway.ts:59-66 | emits to the room's members iff a non-empty room is given; otherwise emits nothing |
| Gateway.WatcherGateway.SendStockTradeMessage | src/shared/watcher/watcher.gateway.ts:67-69 | `T.<sym>` to room `sym`, not upper-cased |
| Gateway.WatcherGateway.SendStockQuoteMessage | src/shared/watcher/watcher.gateway.ts:71-73 | `Q.<sym>` to room `sym` |
| Gateway.WatcherGateway.SendMarketStatus | src/shared/watcher/watcher.gateway.ts:75-77 | `market.status` to every client |
| Gateway.TradeReachesJoiner | src/shared/watcher/watcher.gateway.ts:38-68 | after a join, a trade reaches the joiner iff its symbol is the upper-cased joined name, or the joiner was already in that room |
| Polygon.BuildURI | src/shared/polygon/polygon.service.ts:75-91 | the loop appends the parameters one by one, and the result is `URI` |
| Polygon.ParamsAppend | src/shared/polygon/polygon.service.ts:80-84 | parameters are appended verbatim as `&k=v`, in list order |
| Polygon.URIShapes | src/shared/polygon/polygon.service.ts:77-90 | no route and no parameters give `https://api.polygon.io?apiKey=<key>`; an empty route counts as none; a route gives base + route + key + parameters |
| Polygon.URIStartsWithBase | src/shared/polygon/polygon.service.ts:77-90 | every URI starts with `https://api.polygon.io` |
| Polygon.KeyOnce | src/shared/polygon/polygon.service.ts:77-90 | with no `?` in the key, the route or the parameters, `?apiKey=` occurs exactly once, right after the base and the route |
| Polygon.TickersURI | src/shared/polygon/polygon.service.ts:117-124 | `/v2/reference/tickers` with `sort=ticker` and `search=<fragment>` |
| Polygon.ForexSnapshotURI | src/shared/polygon/polygon.service.ts:264-269 | `/v1/conversion/USD/CAD` with `amount=1` and `precision=2` |
| Polygon.ForexSnapshotIgnoresTicker | src/shared/polygon/polygon.service.ts:264-269 | the URI is the same for every ticker |
| Polygon.CryptoLastTrade | src/shared/polygon/polygon.service.ts:223-242 | null iff the request failed; otherwise `last` renamed to c/p/s/t/x, with an empty id |
| Polygon.LastTradeRoundTrip | src/shared/polygon/polygon.service.ts:229-236 | the projection loses nothing but the id |
| Polygon.CryptoPrev | src/shared/polygon/polygon.service.ts:244-260 | the first result iff the request succeeded with a non-empty list; otherwise null |

## Left out
- HTTP and SDK calls are not modelled.
  - Every axios request is left out. A REST response is a parameter: the data, or the error it failed with.
  - The Firebase SDK is left out too. Notifications are an append-only log, and token verification is a function parameter.
  - `firebase.service.ts` is not part of this model.
- Redis itself (`redis.service`) is not part of this model. The store is the abstract `Redis` class above. A failing `hgetall` or `srem` is the set of refused commands of that class.
- Store failures outside the unsubscribe path are not modelled. A rejected `get`, `zrangebyscore`, `zadd`, `zrem`, `exec` or `smembers` would abort the tick, trigger, sweep or open handler midway; the model lets them all succeed.
- The `ws` socket and socket.io are not modelled.
  - Inbound frames arrive already parsed, as sequences of messages. `JSON.parse`, and null elements inside a frame, are left out.
  - Outbound frames are a log of strings.
  - Sending on a socket that is not open is not modelled.
  - Connect and disconnect bookkeeping, `afterInit` and logging are left out.
- Concurrency is not modelled. This covers the `Promise.all` fan-outs, the fire-and-forget `forEach(async …)` triggers, and interleavings of trades with a tick's awaits. Every operation runs atomically, in order.
- Scheduling is left out: `@Interval` and `@Cron`, `checkMarketStatus`, `watcherKeepAlive` and `updateMostActiveStocks`. The last depends on IEX and stock services that are not part of this model.
- Unseen helpers are parameters:
  - `marketService.socketSymbol`;
  - `marketService.typeForSymbol`;
  - `alertService.alertSuffix` (its result is an option, and a falsy suffix is `None` or empty);
  - JavaScript's `toUpperCase`;
  - the number formatting in `notificationPayload`.
- Time is not read from a clock. `Date.now()` is a `now` parameter, and one tick or one frame uses a single `now` for every trigger.
- Prices are JavaScript numbers but are only compared, so they are `int`.
- Consumer.TriggerAlert: the `zadd` with the undefined score from `resetTime(0)` is treated as refused. No fired entry and no notification follow, because what Redis does with that score is not pinned down here.
- Dictionary iteration order is insertion order. JavaScript objects iterate integer-like keys first, in ascending order; a symbol that looked like an integer would be queried earlier than the model says. This changes only the order of triggers and notifications, which are specified as multisets, never the store.
- Iteration order of the store's answers is not modelled. `zrangebyscore` and `smembers` return each member once, in an unspecified order, so trigger lists are specified as multisets.
- The other `polygon.service.ts` routes are not modelled one by one. `marketStatus`, `ticker`, `tickerDetails`, the stock, crypto and forex snapshots, `forexLastQuote` and `forexPreviousClose` build their URIs with `buildURI` and no parameters, which `Polygon.URI` and `Polygon.URIShapes` cover.
