/** The client-facing socket gateway (src/shared/watcher/watcher.gateway.ts): clients join and
    leave rooms named after symbols, and the server emits events to the members of a room or
    to every connected client. The socket server is reduced to its room table and the log of
    emissions it was asked to make. */
module Gateway {
  import opened Wrappers
  import W = Watcher

  /** What an emission carries: a plain string, or a message relayed from a watcher. */
  datatype Data = Text(text: string) | Relayed(msg: W.Message)

  /** One `emit(event, data)` and the clients it reaches. */
  datatype Emission = Emission(to: set<string>, event: string, data: Data)

  /** The room table: room name to the ids of its member clients. */
  type Rooms = map<string, set<string>>

  /** The members of a room; a room nobody joined has none. */
  function Members(rooms: Rooms, room: string): set<string>
  {
    if room in rooms then rooms[room] else {}
  }

  /** `client.join(room)`. */
  function Joined(rooms: Rooms, room: string, client: string): (r: Rooms)
    ensures Members(r, room) == Members(rooms, room) + {client}
    ensures forall k :: k != room ==> Members(r, k) == Members(rooms, k)
  {
    rooms[room := Members(rooms, room) + {client}]
  }

  /** `client.leave(room)`: leaving a room one is not in changes nothing. */
  function Left(rooms: Rooms, room: string, client: string): (r: Rooms)
    ensures Members(r, room) == Members(rooms, room) - {client}
    ensures forall k :: k != room ==> Members(r, k) == Members(rooms, k)
  {
    if room in rooms then rooms[room := rooms[room] - {client}] else rooms
  }

  /** Leaving a room one has just joined, and was not in before, restores every room. */
  lemma LeaveUndoesJoin(rooms: Rooms, room: string, client: string)
    requires client !in Members(rooms, room)
    ensures forall k :: Members(Left(Joined(rooms, room, client), room, client), k) == Members(rooms, k)
  {
    forall k ensures Members(Left(Joined(rooms, room, client), room, client), k) == Members(rooms, k) {
      if k == room {
        assert Members(rooms, room) + {client} - {client} == Members(rooms, room);
      }
    }
  }

  /** Joining twice is joining once; leaving twice is leaving once. */
  lemma JoinLeaveIdempotent(rooms: Rooms, room: string, client: string)
    ensures forall k :: Members(Joined(Joined(rooms, room, client), room, client), k) == Members(Joined(rooms, room, client), k)
    ensures forall k :: Members(Left(Left(rooms, room, client), room, client), k) == Members(Left(rooms, room, client), k)
  {
  }

  /** `sendMessage` delivers only when the message names a room: a missing or empty room
      (both falsy in JavaScript) reaches nobody and is not emitted at all. */
  predicate HasRoom(room: Option<string>)
  {
    room.Some? && room.value != ""
  }

  /** The event a stock trade or quote is emitted under: `T.<sym>` or `Q.<sym>`. */
  function StockEvent(kind: string, sym: string): (r: string)
    ensures r == kind + "." + sym
    ensures |r| == |kind| + 1 + |sym| && r[..|kind|] == kind && r[|kind|] == '.'
  {
    kind + "." + sym
  }

  /** The stock event names tell the symbol back: `T.<a>` and `T.<b>` differ when `a` and
      `b` do, and a trade event is never a quote event. */
  lemma StockEventsApart(sym1: string, sym2: string)
    ensures StockEvent("T", sym1) == StockEvent("T", sym2) <==> sym1 == sym2
    ensures StockEvent("Q", sym1) == StockEvent("Q", sym2) <==> sym1 == sym2
    ensures StockEvent("T", sym1) != StockEvent("Q", sym2)
  {
    if StockEvent("T", sym1) == StockEvent("T", sym2) {
      assert sym1 == StockEvent("T", sym1)[2..];
    }
    if StockEvent("Q", sym1) == StockEvent("Q", sym2) {
      assert sym1 == StockEvent("Q", sym1)[2..];
    }
    assert StockEvent("T", sym1)[0] == 'T';
  }

  class WatcherGateway {
    /** The socket server's room table. */
    var rooms: Rooms
    /** The ids of the connected clients; connecting and disconnecting belong to socket.io. */
    var clients: set<string>
    /** Every emission, in order. */
    var emitted: seq<Emission>
    /** `firebaseService.authenticate`: whether the token verifies; a missing token is `None`. */
    const authenticate: Option<string> -> bool
    /** JavaScript's `toUpperCase`. */
    const upper: string -> string

    constructor (authenticate: Option<string> -> bool, upper: string -> string)
      ensures rooms == map[] && clients == {} && emitted == []
      ensures this.authenticate == authenticate && this.upper == upper
    {
      rooms, clients, emitted := map[], {}, [];
      this.authenticate, this.upper := authenticate, upper;
    }

    /** `handleMessage` (`msgToServer`): the payload goes back out to every client as
        `msgToClient`. */
    method HandleMessage(client: string, payload: string)
      modifies this`emitted
      ensures emitted == old(emitted) + [Emission(clients, "msgToClient", Text(payload))]
    {
      emitted := emitted + [Emission(clients, "msgToClient", Text(payload))];
    }

    /** `handleJoin(client, [symbol, token])`: the client joins the upper-cased room, but
        only once its token authenticates; a rejected or missing token, or a missing symbol,
        leaves every room as it was. */
    method HandleJoin(client: string, payload: seq<string>) returns (joined: bool)
      modifies this`rooms
      ensures joined <==> |payload| >= 1 && authenticate(if |payload| >= 2 then Some(payload[1]) else None)
      ensures joined ==> rooms == Joined(old(rooms), upper(payload[0]), client)
      ensures !joined ==> rooms == old(rooms)
    {
      if |payload| == 0 {
        return false;
      }
      var symbol := payload[0];
      var token := if |payload| >= 2 then Some(payload[1]) else None;
      if !authenticate(token) {
        return false;
      }
      rooms := Joined(rooms, upper(symbol), client);
      joined := true;
    }

    /** `handleLeave(client, room)`: the client leaves the upper-cased room. */
    method HandleLeave(client: string, payload: string)
      modifies this`rooms
      ensures rooms == Left(old(rooms), upper(payload), client)
    {
      rooms := Left(rooms, upper(payload), client);
    }

    /** `sendMessage({room, event, data})`: emitted to the room's members when a room is given,
        dropped otherwise. */
    method SendMessage(room: Option<string>, event: string, data: W.Message)
      modifies this`emitted
      ensures HasRoom(room) ==> emitted == old(emitted) + [Emission(Members(rooms, room.value), event, Relayed(data))]
      ensures !HasRoom(room) ==> emitted == old(emitted)
    {
      if room.Some? && room.value != "" {
        emitted := emitted + [Emission(Members(rooms, room.value), event, Relayed(data))];
      }
    }

    /** `sendStockTradeMessage(message)`: event `T.<sym>` to the room `sym`, which is not
        upper-cased. */
    method SendStockTradeMessage(message: W.Message)
      modifies this`emitted
      ensures emitted == old(emitted) + [Emission(Members(rooms, message.room), StockEvent("T", message.room), Relayed(message))]
    {
      emitted := emitted + [Emission(Members(rooms, message.room), StockEvent("T", message.room), Relayed(message))];
    }

    /** `sendStockQuoteMessage(message)`: event `Q.<sym>` to the room `sym`. */
    method SendStockQuoteMessage(message: W.Message)
      modifies this`emitted
      ensures emitted == old(emitted) + [Emission(Members(rooms, message.room), StockEvent("Q", message.room), Relayed(message))]
    {
      emitted := emitted + [Emission(Members(rooms, message.room), StockEvent("Q", message.room), Relayed(message))];
    }

    /** `sendMarketStatus(status)`: `market.status` to every client. */
    method SendMarketStatus(status: string)
      modifies this`emitted
      ensures emitted == old(emitted) + [Emission(clients, "market.status", Text(status))]
    {
      emitted := emitted + [Emission(clients, "market.status", Text(status))];
    }
  }

  /** Who a stock trade reaches after a successful join: the joiner is among the recipients
      exactly when the trade's symbol is the upper-cased name it joined with, or it was
      already in that symbol's room. A lower-case symbol sent as-is misses every joiner. */
  lemma TradeReachesJoiner(rooms: Rooms, upper: string -> string, name: string, client: string, sym: string)
    ensures client in Members(Joined(rooms, upper(name), client), sym) <==> sym == upper(name) || client in Members(rooms, sym)
  {
  }
}
