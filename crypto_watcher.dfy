/** The crypto watcher (src/shared/watcher/clusters/crypto_watcher.ts): relays `XQ`, `XT`
    and `XA` events to the delegate, feeds trades to the crypto consumer, and builds the
    crypto control frames. The base connection is the `feed` it holds. */
module CryptoWatcher {
  import opened Wrappers
  import opened Collections
  import opened Store
  import opened Consumer
  import opened Trackers
  import CC = CryptoConsumer
  import W = Watcher

  /** `{"action":"subscribe","params":"XT.<S>,XQ.<S>"}`: trades and quotes, no aggregates. */
  function SubscribeFrame(s: string): (r: string)
    ensures r == W.ControlFrame("subscribe", "XT." + s + ",XQ." + s)
  {
    W.ChannelsOfTwo("XT", "XQ", s);
    W.ControlFrame("subscribe", W.Channels(["XT", "XQ"], s))
  }

  /** `{"action":"unsubscribe","params":"XQ.<S>,XT.<S>,XA.<S>"}`: also drops aggregates,
      which the subscribe frame never asked for. */
  function UnsubscribeFrame(s: string): (r: string)
    ensures r == W.ControlFrame("unsubscribe", "XQ." + s + ",XT." + s + ",XA." + s)
  {
    W.ChannelsOfThree("XQ", "XT", "XA", s);
    W.ControlFrame("unsubscribe", W.Channels(["XQ", "XT", "XA"], s))
  }

  /** Different socket symbols get different frames. */
  lemma FramesTellSymbolsApart(s1: string, s2: string)
    requires s1 != s2
    ensures SubscribeFrame(s1) != SubscribeFrame(s2)
    ensures UnsubscribeFrame(s1) != UnsubscribeFrame(s2)
  {
    if SubscribeFrame(s1) == SubscribeFrame(s2) {
      W.ControlFrameInjective("subscribe", W.Channels(["XT", "XQ"], s1), W.Channels(["XT", "XQ"], s2));
      W.ChannelsInjective(["XT", "XQ"], s1, s2);
    }
    if UnsubscribeFrame(s1) == UnsubscribeFrame(s2) {
      W.ControlFrameInjective("unsubscribe", W.Channels(["XQ", "XT", "XA"], s1), W.Channels(["XQ", "XT", "XA"], s2));
      W.ChannelsInjective(["XQ", "XT", "XA"], s1, s2);
    }
  }

  /** The subscribe frame for a watchlist symbol. */
  function SubscribeVia(socketSymbol: string -> string): string -> string
  {
    symbol => SubscribeFrame(socketSymbol(symbol))
  }

  /** What `handleMessage` broadcasts: the three crypto events, relayed as they came;
      nothing for a missing message or any other event. */
  function Relayed(msg: Option<W.Message>): (r: seq<W.Broadcast>)
    ensures r != [] <==> msg.Some? && msg.value.ev in {"XQ", "XT", "XA"}
    ensures r != [] ==> r == [W.Relay(msg.value)]
  {
    match msg
    case None => []
    case Some(m) => if m.ev == "XQ" || m.ev == "XT" || m.ev == "XA" then [W.Relay(m)] else []
  }

  /** The trade a message feeds the consumer: `(pair, p)` of an `XT` event. */
  function Trade(msg: Option<W.Message>): (r: seq<(string, int)>)
    ensures r != [] <==> msg.Some? && msg.value.ev == "XT"
    ensures r != [] ==> r == [(msg.value.room, msg.value.price)]
  {
    if msg.Some? && msg.value.ev == "XT" then [(msg.value.room, msg.value.price)] else []
  }

  /** Dropping `status` events loses nothing the crypto watcher acts on: no broadcast and
      no trade. */
  lemma RoutingLosesNothing(frame: seq<W.Message>)
    ensures W.Handled(Relayed, W.Routed(frame)) == W.Handled(Relayed, frame)
    ensures W.Handled(Trade, W.Routed(frame)) == W.Handled(Trade, frame)
  {
    W.RoutingKeeps(Relayed, frame);
    W.RoutingKeeps(Trade, frame);
  }

  class CryptoWatcher {
    const feed: W.Watcher
    const consumer: CC.CryptoConsumer
    const delegate: W.Delegate
    const store: Redis
    /** `marketService.socketSymbol`, which this model does not include. */
    const socketSymbol: string -> string

    ghost predicate Valid()
      reads this, consumer
    {
      consumer.Valid() && consumer.store == store && feed.market == Crypto
    }

    constructor (delegate: W.Delegate, apiKey: string, store: Redis, sink: Firebase, socketSymbol: string -> string)
      ensures Valid() && this.delegate == delegate && this.store == store && this.socketSymbol == socketSymbol
      ensures fresh(feed) && feed.apiKey == apiKey && !feed.isConnectionAlive && feed.sent == []
      ensures fresh(consumer) && consumer.sink == sink && consumer.low == map[] && consumer.lowKeys == []
      ensures consumer.high == consumer.low && consumer.highKeys == consumer.lowKeys
    {
      this.delegate, this.store, this.socketSymbol := delegate, store, socketSymbol;
      feed := new W.Watcher(Crypto, apiKey);
      consumer := new CC.CryptoConsumer(store, sink);
    }

    /** `nextTick()` runs the consumer's tick. */
    method NextTick(now: int) returns (ghost ts: seq<TriggerSet>)
      requires Valid()
      modifies store`zsets, consumer.sink`written
      ensures Valid()
      ensures multiset(ts) == Bag(old(store.zsets), consumer.Queries())
      ensures store.zsets == AfterTick(old(store.zsets), store.records, consumer.Queries(), ts, now)
      ensures consumer.sink.written == old(consumer.sink.written) + Notes(store.records, ts, now)
    {
      ts := consumer.NextTick(now);
    }

    /** `handleMessage(msg)`: a missing message or an unknown event does nothing; `XT`
        lowers both trackers, then is relayed; `XQ` is relayed; `XA` is relayed and handed
        to the consumer, which ignores it. */
    method HandleMessage(msg: Option<W.Message>)
      requires Valid()
      modifies delegate`sent, consumer`low, consumer`lowKeys, consumer`high, consumer`highKeys
      ensures Valid()
      ensures delegate.sent == old(delegate.sent) + Relayed(msg)
      ensures consumer.low == Track(old(consumer.low), Trade(msg))
      ensures consumer.lowKeys == TrackKeys(old(consumer.low), old(consumer.lowKeys), Trade(msg))
      ensures consumer.high == Track(old(consumer.high), Trade(msg))
      ensures consumer.highKeys == TrackKeys(old(consumer.high), old(consumer.highKeys), Trade(msg))
      ensures consumer.high == consumer.low && consumer.highKeys == consumer.lowKeys
    {
      if msg.None? {
        return;
      }
      var m := msg.value;
      assert Trade(msg)[..0] == [];
      if m.ev == "XQ" {
        delegate.SendMessage(m.ev, m.room, m);
      } else if m.ev == "XT" {
        consumer.ConsumeTrade(m.room, m.price);
        delegate.SendMessage(m.ev, m.room, m);
      } else if m.ev == "XA" {
        delegate.SendMessage(m.ev, m.room, m);
        consumer.ConsumeAggregate(m.room, m.low, m.high);
      }
    }

    /** The message handler of the socket: every event of the frame but `status` goes to
        `handleMessage`, in order. */
    method OnFrame(frame: seq<W.Message>)
      requires Valid()
      modifies delegate`sent, consumer`low, consumer`lowKeys, consumer`high, consumer`highKeys
      ensures Valid()
      ensures delegate.sent == old(delegate.sent) + W.Handled(Relayed, frame)
      ensures consumer.low == Track(old(consumer.low), W.Handled(Trade, frame))
      ensures consumer.lowKeys == TrackKeys(old(consumer.low), old(consumer.lowKeys), W.Handled(Trade, frame))
      ensures consumer.high == Track(old(consumer.high), W.Handled(Trade, frame))
      ensures consumer.highKeys == TrackKeys(old(consumer.high), old(consumer.highKeys), W.Handled(Trade, frame))
      ensures consumer.high == consumer.low && consumer.highKeys == consumer.lowKeys
    {
      ghost var low0, lowKeys0, high0, highKeys0 := consumer.low, consumer.lowKeys, consumer.high, consumer.highKeys;
      for i := 0 to |frame|
        invariant Valid()
        invariant delegate.sent == old(delegate.sent) + W.Handled(Relayed, frame[..i])
        invariant consumer.low == Track(low0, W.Handled(Trade, frame[..i]))
        invariant consumer.lowKeys == TrackKeys(low0, lowKeys0, W.Handled(Trade, frame[..i]))
        invariant consumer.high == Track(high0, W.Handled(Trade, frame[..i]))
        invariant consumer.highKeys == TrackKeys(high0, highKeys0, W.Handled(Trade, frame[..i]))
      {
        var msg := frame[i];
        W.HandledStep(Relayed, frame, i);
        W.HandledStep(Trade, frame, i);
        ghost var before := W.Handled(Trade, frame[..i]);
        TrackStep(low0, lowKeys0, before, Trade(Some(msg)));
        TrackStep(high0, highKeys0, before, Trade(Some(msg)));
        ghost var sent := delegate.sent;
        if msg.ev != "status" {
          HandleMessage(Some(msg));
        } else {
          assert Trade(Some(msg)) == [];
        }
        W.SkipStep(Relayed, frame, i, old(delegate.sent), sent, delegate.sent);
      }
      assert frame[..|frame|] == frame;
    }

    /** `subscribeTo(symbol)`. */
    method SubscribeTo(symbol: string)
      modifies feed`sent
      ensures feed.sent == old(feed.sent) + [SubscribeFrame(socketSymbol(symbol))]
    {
      feed.SendWebsocketMessage(SubscribeFrame(socketSymbol(symbol)));
    }

    /** `unsubscribeFrom(symbol)`: only once no client watches the symbol. */
    method UnsubscribeFrom(symbol: string)
      requires Valid()
      modifies feed`sent, store`watchlists
      ensures W.Unwatching(store, Crypto, symbol) ==>
                feed.sent == old(feed.sent) + [UnsubscribeFrame(socketSymbol(symbol))]
                && store.watchlists == old(store.AfterSRem(Crypto, symbol))
      ensures !W.Unwatching(store, Crypto, symbol) ==>
                feed.sent == old(feed.sent) && store.watchlists == old(store.watchlists)
    {
      feed.Unsubscribe(store, symbol, UnsubscribeFrame(socketSymbol(symbol)));
    }

    /** The open handler, with `subscribeTo` for every watchlist member. */
    method OnOpen() returns (ghost members: seq<string>)
      requires Valid()
      modifies feed`isConnectionAlive, feed`sent
      ensures feed.isConnectionAlive
      ensures Elems(members) == store.Watchlist(Crypto) && Distinct(members)
      ensures feed.sent == old(feed.sent) + [W.AuthFrame(feed.apiKey)] + Mapped(SubscribeVia(socketSymbol), members)
    {
      members := feed.OnOpen(store, SubscribeVia(socketSymbol));
    }
  }
}
