/** The streaming connection shared by the three segment watchers
    (src/shared/watcher/clusters/watcher.ts): one upstream socket per market, the
    `isConnectionAlive` flag its open and close handlers flip, the frames sent on it, and the
    control frames the segments build. The socket itself is a log: `sent` holds every frame
    sent, in order, across reconnects, and `connections` counts the sockets created. */
module Watcher {
  import opened Wrappers
  import opened Collections
  import opened Store

  /** One parsed inbound event: its type `ev`, the symbol it is about (`pair`, `sym` or `p`
      depending on the segment), a price (`p` of a trade, `b` of a forex quote) and an
      aggregate's `l` and `h`. */
  datatype Message = Message(ev: string, room: string, price: int, low: int, high: int)

  /** A `sendMessage(ev, room, data)` call on the delegate. */
  datatype Broadcast = Broadcast(ev: string, room: string, data: Message)

  /** The broadcast that relays a message as it came. */
  function Relay(m: Message): (b: Broadcast)
    ensures b.ev == m.ev && b.room == m.room && b.data == m
  {
    Broadcast(m.ev, m.room, m)
  }

  /** The watcher delegate, reduced to the log of broadcasts it was asked to make. */
  class Delegate {
    var sent: seq<Broadcast>

    constructor ()
      ensures sent == []
    {
      sent := [];
    }

    method SendMessage(ev: string, room: string, data: Message)
      modifies this`sent
      ensures sent == old(sent) + [Broadcast(ev, room, data)]
    {
      sent := sent + [Broadcast(ev, room, data)];
    }
  }

  /** `{"action":"<action>","params":"<params>"}`, with nothing escaped. */
  function ControlFrame(action: string, params: string): string
  {
    "{\"action\":\"" + action + "\",\"params\":\"" + params + "\"}"
  }

  /** The first frame of every connection: `{"action":"auth","params":"<apiKey>"}`. */
  function AuthFrame(apiKey: string): string
  {
    ControlFrame("auth", apiKey)
  }

  /** The channel list `E1.S,E2.S,...` of events `evs` for socket symbol `s`. */
  function Channels(evs: seq<string>, s: string): string
    requires evs != []
  {
    if |evs| == 1 then evs[0] + "." + s
    else Channels(evs[..|evs| - 1], s) + "," + evs[|evs| - 1] + "." + s
  }

  lemma ChannelsOfTwo(e1: string, e2: string, s: string)
    ensures Channels([e1, e2], s) == e1 + "." + s + "," + e2 + "." + s
  {
    assert [e1, e2][..1] == [e1];
  }

  lemma ChannelsOfThree(e1: string, e2: string, e3: string, s: string)
    ensures Channels([e1, e2, e3], s) == e1 + "." + s + "," + e2 + "." + s + "," + e3 + "." + s
  {
    assert [e1, e2, e3][..2] == [e1, e2];
    ChannelsOfTwo(e1, e2, s);
  }

  /** The total length of the event names. */
  function NamesLength(evs: seq<string>): nat
  {
    if evs == [] then 0 else NamesLength(evs[..|evs| - 1]) + |evs[|evs| - 1]|
  }

  lemma {:induction false} ChannelsLength(evs: seq<string>, s: string)
    requires evs != []
    ensures |Channels(evs, s)| == NamesLength(evs) + |evs| * (|s| + 2) - 1
  {
    var n := |evs|;
    if n == 1 {
      assert evs[..0] == [];
    } else {
      ChannelsLength(evs[..n - 1], s);
      assert n * (|s| + 2) == (n - 1) * (|s| + 2) + (|s| + 2);
      assert |Channels(evs, s)| == |Channels(evs[..n - 1], s)| + |evs[n - 1]| + |s| + 2;
    }
  }

  /** A channel list ends with its socket symbol, so one list of events names different
      symbols with different strings: the upstream cannot confuse two symbols. */
  lemma ChannelsInjective(evs: seq<string>, s1: string, s2: string)
    requires evs != [] && Channels(evs, s1) == Channels(evs, s2)
    ensures s1 == s2
  {
    ChannelsLength(evs, s1);
    ChannelsLength(evs, s2);
    var c := Channels(evs, s1);
    ChannelsSuffix(evs, s1);
    ChannelsSuffix(evs, s2);
    assert s1 == c[|c| - |s1|..];
  }

  lemma ChannelsSuffix(evs: seq<string>, s: string)
    requires evs != []
    ensures |s| <= |Channels(evs, s)| && Channels(evs, s)[|Channels(evs, s)| - |s|..] == s
  {
    var c := Channels(evs, s);
    if |evs| == 1 {
      assert c == (evs[0] + ".") + s;
    } else {
      assert c == (Channels(evs[..|evs| - 1], s) + "," + evs[|evs| - 1] + ".") + s;
    }
  }

  /** A control frame gives back its parameters: equal frames for one action carry equal
      parameters. */
  lemma ControlFrameInjective(action: string, p1: string, p2: string)
    requires ControlFrame(action, p1) == ControlFrame(action, p2)
    ensures p1 == p2
  {
    var head := "{\"action\":\"" + action + "\",\"params\":\"";
    var f1, f2 := ControlFrame(action, p1), ControlFrame(action, p2);
    assert f1 == head + p1 + "\"}" && f2 == head + p2 + "\"}";
    assert p1 == f1[|head|..|f1| - 2];
  }

  /** Drops the `status` events of a frame and keeps the others in order: what reaches
      `handleMessage`. */
  function Routed(frame: seq<Message>): (r: seq<Message>)
    ensures forall m :: m in r <==> m in frame && m.ev != "status"
  {
    if frame == [] then []
    else Routed(frame[..|frame| - 1]) + (if frame[|frame| - 1].ev == "status" then [] else [frame[|frame| - 1]])
  }

  /** Routing two frames is routing each: nothing is reordered or held back. */
  lemma {:induction false} RoutedAppend(a: seq<Message>, b: seq<Message>)
    ensures Routed(a + b) == Routed(a) + Routed(b)
  {
    if b == [] {
      assert a + b == a;
    } else {
      var init := b[..|b| - 1];
      assert (a + b)[..|a + b| - 1] == a + init;
      RoutedAppend(a, init);
    }
  }

  /** What a segment's `handleMessage` does over a run of messages, in order: `each` gives
      what one message yields (its broadcasts, its trade or quote, its aggregate). */
  function Handled<T>(each: Option<Message> -> seq<T>, msgs: seq<Message>): seq<T>
  {
    if msgs == [] then [] else Handled(each, msgs[..|msgs| - 1]) + each(Some(msgs[|msgs| - 1]))
  }

  /** One more message of a frame: what it yields follows what the earlier ones did. */
  lemma HandledStep<T>(each: Option<Message> -> seq<T>, frame: seq<Message>, i: nat)
    requires i < |frame|
    ensures Handled(each, frame[..i + 1]) == Handled(each, frame[..i]) + each(Some(frame[i]))
  {
    assert frame[..i + 1][..i] == frame[..i];
  }

  /** Handling two frames is handling one after the other. */
  lemma {:induction false} HandledAppend<T>(each: Option<Message> -> seq<T>, a: seq<Message>, b: seq<Message>)
    ensures Handled(each, a + b) == Handled(each, a) + Handled(each, b)
  {
    if b == [] {
      assert a + b == a;
    } else {
      assert (a + b)[..|a + b| - 1] == a + b[..|b| - 1];
      HandledAppend(each, a, b[..|b| - 1]);
    }
  }

  /** When a `status` event yields nothing, dropping the `status` events of a frame loses
      nothing. */
  lemma {:induction false} RoutingKeeps<T>(each: Option<Message> -> seq<T>, frame: seq<Message>)
    requires forall m: Message :: m.ev == "status" ==> each(Some(m)) == []
    ensures Handled(each, Routed(frame)) == Handled(each, frame)
  {
    if frame != [] {
      var init, m := frame[..|frame| - 1], frame[|frame| - 1];
      var routed := Routed(init);
      RoutingKeeps(each, init);
      if m.ev == "status" {
        assert Routed(frame) == routed + [];
        assert routed + [] == routed;
      } else {
        assert Routed(frame) == routed + [m];
        assert (routed + [m])[..|routed|] == routed;
      }
    }
  }

  /** One turn of a frame handler's loop: message `i` yields its part unless it is a
      `status`, which the handler skips and which yields nothing anyway. */
  lemma SkipStep<T>(each: Option<Message> -> seq<T>, frame: seq<Message>, i: nat, out0: seq<T>, out1: seq<T>, out2: seq<T>)
    requires i < |frame|
    requires out1 == out0 + Handled(each, frame[..i])
    requires frame[i].ev == "status" ==> out2 == out1 && each(Some(frame[i])) == []
    requires frame[i].ev != "status" ==> out2 == out1 + each(Some(frame[i]))
    ensures out2 == out0 + Handled(each, frame[..i + 1])
  {
    HandledStep(each, frame, i);
    if frame[i].ev == "status" {
      assert out1 + [] == out1;
    }
  }

  /** The only case in which `unsubscribeFrom` acts: the `hgetall` succeeds and finds no
      `<market>_watchers:<symbol>` hash, so no client watches the symbol any more. */
  predicate Unwatching(store: Redis, m: Market, symbol: string)
    reads store
  {
    HGetAllCommand !in store.failing && (m, symbol) !in store.watchers
  }

  class Watcher {
    const market: Market
    const apiKey: string
    const socketURL: string
    var isConnectionAlive: bool
    /** Sockets created so far: one by the constructor, one more per close. */
    var connections: nat
    /** Every frame sent upstream, in order. */
    var sent: seq<string>
    /** Pings sent. */
    var pings: nat

    /** The constructor opens the first connection to `wss://socket.polygon.io/<market>`;
        it is not alive until its open event. */
    constructor (market: Market, apiKey: string)
      ensures this.market == market && this.apiKey == apiKey
      ensures socketURL == "wss://socket.polygon.io/" + MarketName(market)
      ensures !isConnectionAlive && connections == 1 && sent == [] && pings == 0
    {
      this.market, this.apiKey := market, apiKey;
      socketURL := "wss://socket.polygon.io/" + MarketName(market);
      isConnectionAlive, connections, sent, pings := false, 1, [], 0;
    }

    method SendWebsocketMessage(message: string)
      modifies this`sent
      ensures sent == old(sent) + [message]
    {
      sent := sent + [message];
    }

    /** The open handler: the connection is alive, the auth frame goes first, then one
        subscribe frame per member of `<market>_watchlist`, built by the segment's
        `subscribe`. `members` is the order SMEMBERS listed them in. */
    method OnOpen(store: Redis, subscribe: string -> string) returns (ghost members: seq<string>)
      modifies this`isConnectionAlive, this`sent
      ensures isConnectionAlive
      ensures Elems(members) == store.Watchlist(market) && Distinct(members)
      ensures sent == old(sent) + [AuthFrame(apiKey)] + Mapped(subscribe, members)
    {
      isConnectionAlive := true;
      SendWebsocketMessage(AuthFrame(apiKey));
      var results := store.SMembers(market);
      ghost var start := sent;
      for i := 0 to |results|
        invariant isConnectionAlive
        invariant sent == start + Mapped(subscribe, results[..i])
      {
        assert results[..i + 1][..i] == results[..i];
        SendWebsocketMessage(subscribe(results[i]));
      }
      assert results[..|results|] == results;
      members := results;
    }

    /** The shared body of every segment's `unsubscribeFrom(symbol)`: look up
        `<market>_watchers:<symbol>`; if the lookup fails or finds a hash, do nothing;
        otherwise send `frame` and drop the symbol from `<market>_watchlist`. A failing
        `srem` lands in the `catch` after the frame has gone out. */
    method Unsubscribe(store: Redis, symbol: string, frame: string)
      modifies this`sent, store`watchlists
      ensures Unwatching(store, market, symbol) ==>
                sent == old(sent) + [frame] && store.watchlists == old(store.AfterSRem(market, symbol))
      ensures !Unwatching(store, market, symbol) ==>
                sent == old(sent) && store.watchlists == old(store.watchlists)
    {
      var results := store.HGetAll(market, symbol);
      if results.Err? {
        return;
      }
      if results.value.Some? {
        return;
      }
      SendWebsocketMessage(frame);
      var removed := store.SRem(market, symbol);
    }

    /** A pong changes nothing. */
    method OnPong()
      ensures unchanged(this)
    {
    }

    /** The close handler: the connection is dead and a new one is opened at once, with no
        limit on retries. */
    method OnClose()
      modifies this`isConnectionAlive, this`connections
      ensures !isConnectionAlive && connections == old(connections) + 1
    {
      isConnectionAlive := false;
      connections := connections + 1;
    }

    /** `ping()`: pings only a live connection. */
    method Ping()
      modifies this`pings
      ensures pings == old(pings) + if isConnectionAlive then 1 else 0
    {
      if isConnectionAlive {
        pings := pings + 1;
      }
    }
  }
}
