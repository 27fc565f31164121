/** The forex watcher (src/shared/watcher/clusters/forex_watcher.ts): relays `C` and `CA`
    events to the delegate, feeds every quote's bid to the forex consumer, and builds the
    forex control frames. The base connection is the `feed` it holds. */
module ForexWatcher {
  import opened Wrappers
  import opened Collections
  import opened Store
  import opened Consumer
  import opened Trackers
  import FC = ForexConsumer
  import W = Watcher

  /** `{"action":"subscribe","params":"C.<S>,CA.<S>"}`: quotes and aggregates. */
  function SubscribeFrame(s: string): (r: string)
    ensures r == W.ControlFrame("subscribe", "C." + s + ",CA." + s)
  {
    W.ChannelsOfTwo("C", "CA", s);
    W.ControlFrame("subscribe", W.Channels(["C", "CA"], s))
  }

  /** `{"action":"unsubscribe","params":"C.<S>,CA.<S>"}`: the same channels. */
  function UnsubscribeFrame(s: string): (r: string)
    ensures r == W.ControlFrame("unsubscribe", "C." + s + ",CA." + s)
  {
    W.ChannelsOfTwo("C", "CA", s);
    W.ControlFrame("unsubscribe", W.Channels(["C", "CA"], s))
  }

  /** Different socket symbols get different frames. */
  lemma FramesTellSymbolsApart(s1: string, s2: string)
    requires s1 != s2
    ensures SubscribeFrame(s1) != SubscribeFrame(s2)
    ensures UnsubscribeFrame(s1) != UnsubscribeFrame(s2)
  {
    if SubscribeFrame(s1) == SubscribeFrame(s2) {
      W.ControlFrameInjective("subscribe", W.Channels(["C", "CA"], s1), W.Channels(["C", "CA"], s2));
      W.ChannelsInjective(["C", "CA"], s1, s2);
    }
    if UnsubscribeFrame(s1) == UnsubscribeFrame(s2) {
      W.ControlFrameInjective("unsubscribe", W.Channels(["C", "CA"], s1), W.Channels(["C", "CA"], s2));
      W.ChannelsInjective(["C", "CA"], s1, s2);
    }
  }

  /** The subscribe frame for a watchlist symbol. */
  function SubscribeVia(socketSymbol: string -> string): string -> string
  {
    symbol => SubscribeFrame(socketSymbol(symbol))
  }

  /** What `handleMessage` broadcasts: the two forex events, relayed as they came (a quote
      under its `p`, an aggregate under its `pair`); nothing for a missing message or any
      other event. */
  function Relayed(msg: Option<W.Message>): (r: seq<W.Broadcast>)
    ensures r != [] <==> msg.Some? && msg.value.ev in {"C", "CA"}
    ensures r != [] ==> r == [W.Relay(msg.value)]
  {
    match msg
    case None => []
    case Some(m) => if m.ev == "C" || m.ev == "CA" then [W.Relay(m)] else []
  }

  /** The quote a message feeds the consumer: `(p, b)` of a `C` event. */
  function Quote(msg: Option<W.Message>): (r: seq<(string, int)>)
    ensures r != [] <==> msg.Some? && msg.value.ev == "C"
    ensures r != [] ==> r == [(msg.value.room, msg.value.price)]
  {
    if msg.Some? && msg.value.ev == "C" then [(msg.value.room, msg.value.price)] else []
  }

  /** Dropping `status` events loses nothing the forex watcher acts on: no broadcast and
      no quote. */
  lemma RoutingLosesNothing(frame: seq<W.Message>)
    ensures W.Handled(Relayed, W.Routed(frame)) == W.Handled(Relayed, frame)
    ensures W.Handled(Quote, W.Routed(frame)) == W.Handled(Quote, frame)
  {
    W.RoutingKeeps(Relayed, frame);
    W.RoutingKeeps(Quote, frame);
  }

  class ForexWatcher {
    const feed: W.Watcher
    const consumer: FC.ForexConsumer
    const delegate: W.Delegate
    const store: Redis
    /** `marketService.socketSymbol`, which this model does not include. */
    const socketSymbol: string -> string

    ghost predicate Valid()
      reads this, consumer
    {
      consumer.Valid() && consumer.store == store && feed.market == Forex
    }

    constructor (delegate: W.Delegate, apiKey: string, store: Redis, sink: Firebase, socketSymbol: string -> string)
      ensures Valid() && this.delegate == delegate && this.store == store && this.socketSymbol == socketSymbol
      ensures fresh(feed) && feed.apiKey == apiKey && !feed.isConnectionAlive && feed.sent == []
      ensures fresh(consumer) && consumer.sink == sink && consumer.lowestBid == map[]
    {
      this.delegate, this.store, this.socketSymbol := delegate, store, socketSymbol;
      feed := new W.Watcher(Forex, apiKey);
      consumer := new FC.ForexConsumer(store, sink);
    }

    /** `nextTick()` runs the consumer's tick, which also empties its dictionary. */
    method NextTick(now: int) returns (ghost ts: seq<TriggerSet>)
      requires Valid()
      modifies consumer`lowestBid, consumer`bidKeys, store`zsets, consumer.sink`written
      ensures Valid() && consumer.lowestBid == map[]
      ensures multiset(ts) == Bag(old(store.zsets), FC.ForexQueries(old(consumer.lowestBid), old(consumer.bidKeys)))
      ensures store.zsets == AfterTick(old(store.zsets), store.records, FC.ForexQueries(old(consumer.lowestBid), old(consumer.bidKeys)), ts, now)
      ensures consumer.sink.written == old(consumer.sink.written) + Notes(store.records, ts, now)
    {
      ts := consumer.NextTick(now);
    }

    /** `handleMessage(msg)`: a missing message or an unknown event does nothing; `C` is
        relayed, then its bid lowers the pair's entry; `CA` is relayed only. */
    method HandleMessage(msg: Option<W.Message>)
      requires Valid()
      modifies delegate`sent, consumer`lowestBid, consumer`bidKeys
      ensures Valid()
      ensures delegate.sent == old(delegate.sent) + Relayed(msg)
      ensures consumer.lowestBid == Track(old(consumer.lowestBid), Quote(msg))
      ensures consumer.bidKeys == TrackKeys(old(consumer.lowestBid), old(consumer.bidKeys), Quote(msg))
    {
      if msg.None? {
        return;
      }
      var m := msg.value;
      assert Quote(msg)[..0] == [];
      if m.ev == "C" {
        delegate.SendMessage(m.ev, m.room, m);
        consumer.ConsumerQuote(m.room, m.price);
      } else if m.ev == "CA" {
        delegate.SendMessage(m.ev, m.room, m);
      }
    }

    /** The message handler of the socket: every event of the frame but `status` goes to
        `handleMessage`, in order. */
    method OnFrame(frame: seq<W.Message>)
      requires Valid()
      modifies delegate`sent, consumer`lowestBid, consumer`bidKeys
      ensures Valid()
      ensures delegate.sent == old(delegate.sent) + W.Handled(Relayed, frame)
      ensures consumer.lowestBid == Track(old(consumer.lowestBid), W.Handled(Quote, frame))
      ensures consumer.bidKeys == TrackKeys(old(consumer.lowestBid), old(consumer.bidKeys), W.Handled(Quote, frame))
    {
      ghost var bids0, bidKeys0 := consumer.lowestBid, consumer.bidKeys;
      for i := 0 to |frame|
        invariant Valid()
        invariant delegate.sent == old(delegate.sent) + W.Handled(Relayed, frame[..i])
        invariant consumer.lowestBid == Track(bids0, W.Handled(Quote, frame[..i]))
        invariant consumer.bidKeys == TrackKeys(bids0, bidKeys0, W.Handled(Quote, frame[..i]))
      {
        var msg := frame[i];
        W.HandledStep(Relayed, frame, i);
        W.HandledStep(Quote, frame, i);
        TrackStep(bids0, bidKeys0, W.Handled(Quote, frame[..i]), Quote(Some(msg)));
        ghost var sent := delegate.sent;
        if msg.ev != "status" {
          HandleMessage(Some(msg));
        } else {
          assert Quote(Some(msg)) == [];
        }
        W.SkipStep(Relayed, frame, i, old(delegate.sent), sent, delegate.sent);
      }
      assert frame[..|frame|] == frame;
    }

    /** `subscribeTo(symbol)`. */
    method SubscribeTo(symbol: string)
      modifies feed`sent
      ensures feed.sent == old(feed.sent) + [SubscribeFrame(socketSymbol(symbol))]
    {
      feed.SendWebsocketMessage(SubscribeFrame(socketSymbol(symbol)));
    }

    /** `unsubscribeFrom(symbol)`: only once no client watches the symbol. */
    method UnsubscribeFrom(symbol: string)
      requires Valid()
      modifies feed`sent, store`watchlists
      ensures W.Unwatching(store, Forex, symbol) ==>
                feed.sent == old(feed.sent) + [UnsubscribeFrame(socketSymbol(symbol))]
                && store.watchlists == old(store.AfterSRem(Forex, symbol))
      ensures !W.Unwatching(store, Forex, symbol) ==>
                feed.sent == old(feed.sent) && store.watchlists == old(store.watchlists)
    {
      feed.Unsubscribe(store, symbol, UnsubscribeFrame(socketSymbol(symbol)));
    }

    /** The open handler, with `subscribeTo` for every watchlist member. */
    method OnOpen() returns (ghost members: seq<string>)
      requires Valid()
      modifies feed`isConnectionAlive, feed`sent
      ensures feed.isConnectionAlive
      ensures Elems(members) == store.Watchlist(Forex) && Distinct(members)
      ensures feed.sent == old(feed.sent) + [W.AuthFrame(feed.apiKey)] + Mapped(SubscribeVia(socketSymbol), members)
    {
      members := feed.OnOpen(store, SubscribeVia(socketSymbol));
    }
  }
}
