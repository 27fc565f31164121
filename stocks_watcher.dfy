/** The stocks watcher (src/shared/watcher/clusters/stocks_watcher.ts): relays `T`, `Q` and
    `A` events to the delegate and hands every aggregate to the stocks consumer, which
    matches it against the threshold indexes at once. Its tick does nothing. */
module StocksWatcher {
  import opened Wrappers
  import opened Collections
  import opened Store
  import opened Consumer
  import SC = StocksConsumer
  import W = Watcher

  /** `{"action":"subscribe","params":"Q.<S>,T.<S>,A.<S>"}`. */
  function SubscribeFrame(s: string): (r: string)
    ensures r == W.ControlFrame("subscribe", "Q." + s + ",T." + s + ",A." + s)
  {
    W.ChannelsOfThree("Q", "T", "A", s);
    W.ControlFrame("subscribe", W.Channels(["Q", "T", "A"], s))
  }

  /** `{"action":"unsubscribe","params":"Q.<S>,T.<S>,A.<S>"}`: the same channels. */
  function UnsubscribeFrame(s: string): (r: string)
    ensures r == W.ControlFrame("unsubscribe", "Q." + s + ",T." + s + ",A." + s)
  {
    W.ChannelsOfThree("Q", "T", "A", s);
    W.ControlFrame("unsubscribe", W.Channels(["Q", "T", "A"], s))
  }

  /** Different socket symbols get different frames. */
  lemma FramesTellSymbolsApart(s1: string, s2: string)
    requires s1 != s2
    ensures SubscribeFrame(s1) != SubscribeFrame(s2)
    ensures UnsubscribeFrame(s1) != UnsubscribeFrame(s2)
  {
    if SubscribeFrame(s1) == SubscribeFrame(s2) {
      W.ControlFrameInjective("subscribe", W.Channels(["Q", "T", "A"], s1), W.Channels(["Q", "T", "A"], s2));
      W.ChannelsInjective(["Q", "T", "A"], s1, s2);
    }
    if UnsubscribeFrame(s1) == UnsubscribeFrame(s2) {
      W.ControlFrameInjective("unsubscribe", W.Channels(["Q", "T", "A"], s1), W.Channels(["Q", "T", "A"], s2));
      W.ChannelsInjective(["Q", "T", "A"], s1, s2);
    }
  }

  function SubscribeVia(socketSymbol: string -> string): string -> string
  {
    symbol => SubscribeFrame(socketSymbol(symbol))
  }

  /** What `handleMessage` broadcasts: the three stocks events, relayed as they came. */
  function Relayed(msg: Option<W.Message>): (r: seq<W.Broadcast>)
    ensures r != [] <==> msg.Some? && msg.value.ev in {"T", "Q", "A"}
    ensures r != [] ==> r == [W.Relay(msg.value)]
  {
    match msg
    case None => []
    case Some(m) => if m.ev == "T" || m.ev == "Q" || m.ev == "A" then [W.Relay(m)] else []
  }

  /** The aggregate a message hands the consumer: the message itself if it is an `A`. */
  function Aggregate(msg: Option<W.Message>): (r: seq<W.Message>)
    ensures r != [] <==> msg.Some? && msg.value.ev == "A"
    ensures r != [] ==> r == [msg.value]
  {
    if msg.Some? && msg.value.ev == "A" then [msg.value] else []
  }

  /** Dropping `status` events loses nothing the stocks watcher acts on: no broadcast and
      no aggregate. */
  lemma RoutingLosesNothing(frame: seq<W.Message>)
    ensures W.Handled(Relayed, W.Routed(frame)) == W.Handled(Relayed, frame)
    ensures W.Handled(Aggregate, W.Routed(frame)) == W.Handled(Aggregate, frame)
  {
    W.RoutingKeeps(Relayed, frame);
    W.RoutingKeeps(Aggregate, frame);
  }

  /** The queries of one aggregate message: its low against the over-index, its high
      against the under-index of its symbol. */
  function QueriesOf(a: W.Message): seq<Query>
  {
    SC.AggregateQueries(a.room, a.low, a.high)
  }

  /** A run of aggregates through the stores `zs`: aggregate `aggs[i]` is matched against
      `zs[i]`, fires the triggers `tss[i]` (each once per query that matched it) and leaves
      `zs[i + 1]`. */
  ghost predicate Run(records: map<string, Alert>, aggs: seq<W.Message>, tss: seq<seq<TriggerSet>>, zs: seq<ZSets>, now: int)
  {
    && |tss| == |aggs| && |zs| == |aggs| + 1
    && forall k {:trigger Tick(records, aggs[k], tss[k], zs[k], zs[k + 1], now)} ::
         0 <= k < |aggs| ==> Tick(records, aggs[k], tss[k], zs[k], zs[k + 1], now)
  }

  /** Aggregate `a`, matched against `z`, fires `ts` (each once per query that matched it)
      and leaves `z'`. */
  ghost predicate Tick(records: map<string, Alert>, a: W.Message, ts: seq<TriggerSet>, z: ZSets, z': ZSets, now: int)
  {
    && multiset(ts) == Bag(z, QueriesOf(a))
    && z' == AfterTick(z, records, QueriesOf(a), ts, now)
  }

  /** A run of at most one aggregate, starting where another run ended, continues it. */
  lemma RunJoin(records: map<string, Alert>, a: seq<W.Message>, ta: seq<seq<TriggerSet>>, za: seq<ZSets>,
                b: seq<W.Message>, tb: seq<seq<TriggerSet>>, zb: seq<ZSets>, now: int)
    requires Run(records, a, ta, za, now) && Run(records, b, tb, zb, now)
    requires |b| <= 1 && zb[0] == za[|za| - 1]
    ensures Run(records, a + b, ta + tb, za + zb[1..], now)
    ensures (za + zb[1..])[|za + zb[1..]| - 1] == zb[|zb| - 1]
  {
    var aggs, tss, zs := a + b, ta + tb, za + zb[1..];
    forall k | 0 <= k < |aggs|
      ensures Tick(records, aggs[k], tss[k], zs[k], zs[k + 1], now)
    {
      if k < |a| {
        assert aggs[k] == a[k] && tss[k] == ta[k] && zs[k] == za[k] && zs[k + 1] == za[k + 1];
      } else {
        var j := 0;
        assert Tick(records, b[j], tb[j], zb[j], zb[j + 1], now);
        assert aggs[k] == b[j] && tss[k] == tb[j] && zs[k] == zb[j] && zs[k + 1] == zb[j + 1];
      }
    }
  }

  /** The notifications of a run, aggregate after aggregate. */
  function RunNotes(records: map<string, Alert>, tss: seq<seq<TriggerSet>>, now: int): seq<Notification>
  {
    if tss == [] then [] else RunNotes(records, tss[..|tss| - 1], now) + Notes(records, tss[|tss| - 1], now)
  }

  lemma {:induction false} RunNotesAppend(records: map<string, Alert>, ta: seq<seq<TriggerSet>>, tb: seq<seq<TriggerSet>>, now: int)
    ensures RunNotes(records, ta + tb, now) == RunNotes(records, ta, now) + RunNotes(records, tb, now)
  {
    if tb == [] {
      assert ta + tb == ta;
    } else {
      var n := |tb| - 1;
      assert (ta + tb)[..|ta + tb| - 1] == ta + tb[..n] && (ta + tb)[|ta + tb| - 1] == tb[n];
      RunNotesAppend(records, ta, tb[..n], now);
    }
  }

  /** What one turn of the frame handler's loop does to the run so far: message `i` of the
      frame adds the run `step`, through the stores `zstep`, unless it is a `status`. */
  lemma DispatchStep(frame: seq<W.Message>, i: nat, now: int, records: map<string, Alert>,
                     tss: seq<seq<TriggerSet>>, zs: seq<ZSets>, step: seq<seq<TriggerSet>>, zstep: seq<ZSets>)
    requires i < |frame|
    requires Run(records, W.Handled(Aggregate, frame[..i]), tss, zs, now)
    requires frame[i].ev == "status" ==> step == [] && zstep == [zs[|zs| - 1]]
    requires frame[i].ev != "status" ==> Run(records, Aggregate(Some(frame[i])), step, zstep, now) && zstep[0] == zs[|zs| - 1]
    ensures Run(records, W.Handled(Aggregate, frame[..i + 1]), tss + step, zs + zstep[1..], now)
    ensures (zs + zstep[1..])[0] == zs[0]
    ensures (zs + zstep[1..])[|zs + zstep[1..]| - 1] == zstep[|zstep| - 1]
  {
    W.HandledStep(Aggregate, frame, i);
    var msg := frame[i];
    if msg.ev == "status" {
      assert Aggregate(Some(msg)) == [];
      assert Run(records, [], [], zstep, now);
    }
    RunJoin(records, W.Handled(Aggregate, frame[..i]), tss, zs, Aggregate(Some(msg)), step, zstep, now);
  }

  /** The notifications written so far, then those of one more run, are the notifications of
      both runs. */
  lemma NotesStep(records: map<string, Alert>, written0: seq<Notification>, written1: seq<Notification>,
                  written2: seq<Notification>, tss: seq<seq<TriggerSet>>, step: seq<seq<TriggerSet>>, now: int)
    requires written1 == written0 + RunNotes(records, tss, now)
    requires written2 == written1 + RunNotes(records, step, now)
    ensures written2 == written0 + RunNotes(records, tss + step, now)
  {
    RunNotesAppend(records, tss, step, now);
  }

  class StocksWatcher {
    const feed: W.Watcher
    const consumer: SC.StocksConsumer
    const delegate: W.Delegate
    const store: Redis
    const socketSymbol: string -> string

    ghost predicate Valid()
    {
      consumer.store == store && feed.market == Stocks
    }

    constructor (delegate: W.Delegate, apiKey: string, store: Redis, sink: Firebase, socketSymbol: string -> string)
      ensures Valid() && this.delegate == delegate && this.store == store && this.socketSymbol == socketSymbol
      ensures fresh(feed) && feed.apiKey == apiKey && !feed.isConnectionAlive && feed.sent == []
      ensures fresh(consumer) && consumer.sink == sink
    {
      this.delegate, this.store, this.socketSymbol := delegate, store, socketSymbol;
      feed := new W.Watcher(Stocks, apiKey);
      consumer := new SC.StocksConsumer(store, sink);
    }

    /** `nextTick()` has an empty body: stocks are matched per aggregate, not per tick. */
    method NextTick()
      ensures unchanged(this, feed, store, delegate, consumer)
    {
    }

    /** `handleMessage(msg)`: a missing message or an unknown event does nothing; `T` and `Q`
        are relayed; `A` is relayed, then matched by the consumer at time `now`, taking the
        store from `zs[0]` to `zs[1]`. */
    method HandleMessage(msg: Option<W.Message>, now: int) returns (ghost tss: seq<seq<TriggerSet>>, ghost zs: seq<ZSets>)
      requires Valid()
      modifies delegate`sent, store`zsets, consumer.sink`written
      ensures delegate.sent == old(delegate.sent) + Relayed(msg)
      ensures Run(store.records, Aggregate(msg), tss, zs, now)
      ensures zs[0] == old(store.zsets) && store.zsets == zs[|zs| - 1]
      ensures consumer.sink.written == old(consumer.sink.written) + RunNotes(store.records, tss, now)
    {
      tss, zs := [], [store.zsets];
      if msg.None? {
        return;
      }
      var m := msg.value;
      if m.ev == "T" || m.ev == "Q" {
        delegate.SendMessage(m.ev, m.room, m);
      } else if m.ev == "A" {
        delegate.SendMessage(m.ev, m.room, m);
        ghost var z0 := store.zsets;
        ghost var ts := consumer.ConsumeAggregate(m.room, m.low, m.high, now);
        tss, zs := [ts], [z0, store.zsets];
        assert Tick(store.records, m, ts, z0, store.zsets, now);
      }
    }

    /** The message handler of the socket: every event of the frame but `status` goes to
        `handleMessage`, in order, all at time `now`. `zs` are the stores the aggregates
        passed through. */
    method OnFrame(frame: seq<W.Message>, now: int) returns (ghost tss: seq<seq<TriggerSet>>, ghost zs: seq<ZSets>)
      requires Valid()
      modifies delegate`sent, store`zsets, consumer.sink`written
      ensures delegate.sent == old(delegate.sent) + W.Handled(Relayed, frame)
      ensures Run(store.records, W.Handled(Aggregate, frame), tss, zs, now)
      ensures zs[0] == old(store.zsets) && store.zsets == zs[|zs| - 1]
      ensures consumer.sink.written == old(consumer.sink.written) + RunNotes(store.records, tss, now)
    {
      tss, zs := [], [store.zsets];
      for i := 0 to |frame|
        invariant delegate.sent == old(delegate.sent) + W.Handled(Relayed, frame[..i])
        invariant Run(store.records, W.Handled(Aggregate, frame[..i]), tss, zs, now)
        invariant zs[0] == old(store.zsets) && store.zsets == zs[|zs| - 1]
        invariant consumer.sink.written == old(consumer.sink.written) + RunNotes(store.records, tss, now)
      {
        tss, zs := Dispatch(frame, i, now, old(delegate.sent), old(consumer.sink.written), tss, zs);
      }
      assert frame[..|frame|] == frame;
    }

    /** One turn of the handler's loop: message `i` of the frame, unless it is a `status`. */
    method Dispatch(frame: seq<W.Message>, i: nat, now: int, ghost sent0: seq<W.Broadcast>, ghost written0: seq<Notification>,
                    ghost tss: seq<seq<TriggerSet>>, ghost zs: seq<ZSets>)
      returns (ghost tss': seq<seq<TriggerSet>>, ghost zs': seq<ZSets>)
      requires Valid() && i < |frame|
      requires delegate.sent == sent0 + W.Handled(Relayed, frame[..i])
      requires Run(store.records, W.Handled(Aggregate, frame[..i]), tss, zs, now) && store.zsets == zs[|zs| - 1]
      requires consumer.sink.written == written0 + RunNotes(store.records, tss, now)
      modifies delegate`sent, store`zsets, consumer.sink`written
      ensures delegate.sent == sent0 + W.Handled(Relayed, frame[..i + 1])
      ensures Run(store.records, W.Handled(Aggregate, frame[..i + 1]), tss', zs', now) && store.zsets == zs'[|zs'| - 1]
      ensures zs'[0] == zs[0]
      ensures consumer.sink.written == written0 + RunNotes(store.records, tss', now)
    {
      var msg := frame[i];
      ghost var zstep: seq<ZSets> := [store.zsets];
      ghost var step: seq<seq<TriggerSet>> := [];
      ghost var sent1, written1 := delegate.sent, consumer.sink.written;
      if msg.ev != "status" {
        step, zstep := HandleMessage(Some(msg), now);
      } else {
        assert RunNotes(store.records, step, now) == [];
      }
      W.SkipStep(Relayed, frame, i, sent0, sent1, delegate.sent);
      DispatchStep(frame, i, now, store.records, tss, zs, step, zstep);
      NotesStep(store.records, written0, written1, consumer.sink.written, tss, step, now);
      tss', zs' := tss + step, zs + zstep[1..];
    }

    method SubscribeTo(symbol: string)
      modifies feed`sent
      ensures feed.sent == old(feed.sent) + [SubscribeFrame(socketSymbol(symbol))]
    {
      feed.SendWebsocketMessage(SubscribeFrame(socketSymbol(symbol)));
    }

    /** `unsubscribeFrom(symbol)`: only once no client watches the symbol. */
    method UnsubscribeFrom(symbol: string)
      requires Valid()
      modifies feed`sent, store`watchlists
      ensures W.Unwatching(store, Stocks, symbol) ==>
                feed.sent == old(feed.sent) + [UnsubscribeFrame(socketSymbol(symbol))]
                && store.watchlists == old(store.AfterSRem(Stocks, symbol))
      ensures !W.Unwatching(store, Stocks, symbol) ==>
                feed.sent == old(feed.sent) && store.watchlists == old(store.watchlists)
    {
      feed.Unsubscribe(store, symbol, UnsubscribeFrame(socketSymbol(symbol)));
    }

    method OnOpen() returns (ghost members: seq<string>)
      requires Valid()
      modifies feed`isConnectionAlive, feed`sent
      ensures feed.isConnectionAlive
      ensures Elems(members) == store.Watchlist(Stocks) && Distinct(members)
      ensures feed.sent == old(feed.sent) + [W.AuthFrame(feed.apiKey)] + Mapped(SubscribeVia(socketSymbol), members)
    {
      members := feed.OnOpen(store, SubscribeVia(socketSymbol));
    }
  }
}
