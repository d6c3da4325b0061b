/**
 * The hook server's registry of bot connections and the handlers the client
 * protocol drives. `Hub.clients` is the `clients` dictionary keyed by channel
 * id; each entry is a `Client` record (or null once disconnected) holding the
 * connection it answers to, its subscription handles, the time of its last
 * PONG and whether its interval timer is still scheduled. The Twitch
 * event-sub listener is abstracted as `EventSubListener`, which only keeps
 * track of which handles it has issued and which are live.
 */
module Server {
  import opened Protocol

  /** Identity of one WebSocket connection. */
  type Socket = nat

  /** A subscription handle issued by the listener. Its callback sends every
      event it receives to `target`, the connection whose CONNECT created it. */
  datatype Handle = Subscription(serial: nat, category: Category, channelId: string, target: Socket)

  /** One action of the hub on a connection: send a message, or close it. */
  datatype Frame = Send(to: Socket, msg: Json) | Close(socket: Socket)

  /** How a client message was handled. NullEntry and NoListenTo are the
      TypeErrors the handler throws (dereferencing a null entry, calling
      `includes` on a missing `listenTo`); they leave every state unchanged. */
  datatype Outcome = Applied | Ignored | NullEntry | NoListenTo

  function HandleSet(hs: seq<Handle>): set<Handle> {
    set h | h in hs
  }

  /** The handles a CONNECT obtains when the listener's next serial is
      `first`: consecutive serials, one per category, all sending to `ws`. */
  function Opened(first: nat, cats: seq<Category>, channelId: string, ws: Socket): seq<Handle> {
    seq(|cats|, i requires 0 <= i < |cats| => Subscription(first + i, cats[i], channelId, ws))
  }

  /** CONNECT's handles are pairwise distinct, and there is one for a category
      exactly when `listenTo` names it, never two. */
  lemma OneHandlePerCategory(first: nat, listenTo: seq<string>, channelId: string, ws: Socket, c: Category)
    ensures var hs := Opened(first, Requested(listenTo), channelId, ws);
      && (forall i, j :: 0 <= i < j < |hs| ==> hs[i] != hs[j] && hs[i].category != hs[j].category)
      && ((exists h :: h in hs && h.category == c) <==> Name(c) in listenTo)
  {
    var cats := Requested(listenTo);
    var hs := Opened(first, cats, channelId, ws);
    RequestedInOrder(listenTo);
    RequestedMembership(listenTo, c);
    if Name(c) in listenTo {
      var i :| 0 <= i < |cats| && cats[i] == c;
      assert hs[i] in hs && hs[i].category == c;
    }
    if h :| h in hs && h.category == c {
      var i :| 0 <= i < |hs| && hs[i] == h;
      assert cats[i] == c;
    }
  }

  /** Pushing the next handle extends Opened by one category. */
  lemma Pushed(first: nat, cats: seq<Category>, hs: seq<Handle>, c: Category, channelId: string, ws: Socket)
    requires hs == Opened(first, cats, channelId, ws)
    ensures hs + [Subscription(first + |cats|, c, channelId, ws)] == Opened(first, cats + [c], channelId, ws)
    ensures HandleSet(hs + [Subscription(first + |cats|, c, channelId, ws)])
         == HandleSet(hs) + {Subscription(first + |cats|, c, channelId, ws)}
  {
  }

  /** The Twitch event-sub listener, seen only through subscribe and
      removeListener: which handles it has issued, which are live, and the
      order in which handles were removed. */
  class EventSubListener {
    var next: nat
    ghost var issued: set<Handle>
    ghost var live: set<Handle>
    ghost var removed: seq<Handle>

    ghost predicate Valid()
      reads this
    {
      live <= issued && forall h :: h in issued ==> h.serial < next
    }

    constructor ()
      ensures Valid() && issued == {} && live == {} && removed == []
    {
      next := 0;
      issued, live, removed := {}, {}, [];
    }

    /** `subscribeTo…Events(channelId, callback)`: a new live handle, distinct
        from every handle issued before. */
    method Subscribe(category: Category, channelId: string, target: Socket) returns (h: Handle)
      requires Valid()
      modifies this
      ensures Valid()
      ensures h == Subscription(old(next), category, channelId, target) && h !in old(issued)
      ensures next == old(next) + 1
      ensures issued == old(issued) + {h} && live == old(live) + {h} && removed == old(removed)
    {
      h := Subscription(next, category, channelId, target);
      next := next + 1;
      issued := issued + {h};
      live := live + {h};
    }

    /** `listener.removeListener(h)`: the handle stops delivering. */
    method RemoveListener(h: Handle)
      requires Valid()
      modifies this
      ensures Valid()
      ensures live == old(live) - {h} && removed == old(removed) + [h]
      ensures issued == old(issued) && next == old(next)
    {
      live := live - {h};
      removed := removed + [h];
    }
  }

  /** The record a CONNECT installs: `{ws, channelId, listeners, lastPing, interval}`. */
  class Client {
    const ws: Socket
    const channelId: string
    const listeners: seq<Handle>
    var lastPing: int
    /** The interval timer is scheduled (set until `clearInterval`). */
    var ticking: bool

    constructor (ws: Socket, channelId: string, listeners: seq<Handle>, now: int)
      ensures this.ws == ws && this.channelId == channelId && this.listeners == listeners
      ensures lastPing == now && ticking
    {
      this.ws := ws;
      this.channelId := channelId;
      this.listeners := listeners;
      lastPing := now;
      ticking := true;
    }
  }

  class Hub {
    var clients: map<string, Client?>
    const listener: EventSubListener
    /** Everything the hub has sent or closed, in order. */
    ghost var wire: seq<Frame>
    /** Every record any CONNECT has created, including replaced ones whose
        timers still run. */
    ghost var created: set<Client>

    /** Registered records sit under their own channel id; every record's
        handles were issued by the listener and belong to no other record; and
        teardown is all-or-nothing: while a record's timer runs all its handles
        are live, once it is cleared none are. */
    ghost predicate Valid()
      reads this, listener, created
    {
      && listener.Valid()
      && (forall k :: k in clients && clients[k] != null ==>
            clients[k] in created && clients[k].channelId == k)
      && (forall c :: c in created ==> HandleSet(c.listeners) <= listener.issued)
      && (forall c :: c in created && c.ticking ==> HandleSet(c.listeners) <= listener.live)
      && (forall c :: c in created && !c.ticking ==> HandleSet(c.listeners) !! listener.live)
      && (forall c, d :: c in created && d in created && c != d ==>
            HandleSet(c.listeners) !! HandleSet(d.listeners))
    }

    /** The record registered under `channelId`, if any. */
    function Entry(channelId: string): set<Client>
      reads this
    {
      if channelId in clients && clients[channelId] != null then {clients[channelId]} else {}
    }

    constructor (listener: EventSubListener)
      requires listener.Valid()
      ensures Valid() && this.listener == listener
      ensures clients == map[] && wire == [] && created == {}
    {
      this.listener := listener;
      clients := map[];
      wire, created := [], {};
    }

    /** CONNECT: subscribe the requested categories in their fixed order and
        install a fresh record under `channelId`. A record already there is
        overwritten without being torn down: its handles stay live and its
        timer keeps running. */
    method Connect(ws: Socket, channelId: string, listenTo: Option<seq<string>>, now: int)
      returns (outcome: Outcome, client: Client?)
      requires Valid()
      modifies this, listener
      ensures Valid()
      ensures listenTo.None? ==>
        outcome == NoListenTo && client == null && unchanged(this, listener)
      ensures listenTo.Some? ==>
        && outcome == Applied && client != null && fresh(client)
        && clients == old(clients)[channelId := client]
        && client.ws == ws && client.channelId == channelId
        && client.lastPing == now && client.ticking
        && client.listeners == Opened(old(listener.next), Requested(listenTo.value), channelId, ws)
        && HandleSet(client.listeners) !! old(listener.issued)
        && listener.issued == old(listener.issued) + HandleSet(client.listeners)
        && listener.next == old(listener.next) + |client.listeners|
        && listener.live == old(listener.live) + HandleSet(client.listeners)
        && listener.removed == old(listener.removed)
        && created == old(created) + {client} && wire == old(wire)
      ensures forall c :: c in old(created) ==> c.ticking == old(c.ticking)
      ensures listenTo.Some? && channelId in old(clients) && old(clients[channelId]) != null
              && old(clients[channelId].ticking) ==>
        HandleSet(old(clients[channelId]).listeners) <= listener.live
    {
      if listenTo.None? {
        outcome, client := NoListenTo, null;
        return;
      }
      var listeners := Open(channelId, listenTo.value, ws);
      client := new Client(ws, channelId, listeners, now);
      clients := clients[channelId := client];
      created := created + {client};
      outcome := Applied;
    }

    /** The CONNECT handler's six `includes` tests, each pushing one new
        subscription onto `listeners`. */
    method Open(channelId: string, listenTo: seq<string>, ws: Socket) returns (listeners: seq<Handle>)
      requires listener.Valid()
      modifies listener
      ensures listener.Valid()
      ensures listeners == Opened(old(listener.next), Requested(listenTo), channelId, ws)
      ensures HandleSet(listeners) !! old(listener.issued)
      ensures listener.issued == old(listener.issued) + HandleSet(listeners)
      ensures listener.next == old(listener.next) + |listeners|
      ensures listener.live == old(listener.live) + HandleSet(listeners)
      ensures listener.removed == old(listener.removed)
    {
      var l := listenTo;
      ghost var first := listener.next;
      ghost var issued0, live0, removed0 := listener.issued, listener.live, listener.removed;
      ghost var cats: seq<Category> := [];
      listeners := [];
      listeners := SubscribeIfListed(Follow, channelId, ws, l, listeners, first, cats, issued0, live0, removed0);
      cats := cats + Listed(Follow, l);
      listeners := SubscribeIfListed(Online, channelId, ws, l, listeners, first, cats, issued0, live0, removed0);
      cats := cats + Listed(Online, l);
      listeners := SubscribeIfListed(Offline, channelId, ws, l, listeners, first, cats, issued0, live0, removed0);
      cats := cats + Listed(Offline, l);
      listeners := SubscribeIfListed(Sub, channelId, ws, l, listeners, first, cats, issued0, live0, removed0);
      cats := cats + Listed(Sub, l);
      listeners := SubscribeIfListed(Cheer, channelId, ws, l, listeners, first, cats, issued0, live0, removed0);
      cats := cats + Listed(Cheer, l);
      listeners := SubscribeIfListed(Redemption, channelId, ws, l, listeners, first, cats, issued0, live0, removed0);
      cats := cats + Listed(Redemption, l);
      RequestedUnfolded(l);
      forall h | h in HandleSet(listeners) ensures h.serial >= first {
        var i :| 0 <= i < |listeners| && listeners[i] == h;
      }
    }

    /** The listener's state while `listeners` is being built: it has issued
        exactly the handles pushed so far, one per category of `cats`, with
        consecutive serials, all live. */
    ghost predicate Building(first: nat, cats: seq<Category>, channelId: string, ws: Socket,
                             listeners: seq<Handle>, issued0: set<Handle>, live0: set<Handle>,
                             removed0: seq<Handle>)
      reads listener
    {
      && listener.Valid() && listener.next == first + |cats|
      && listeners == Opened(first, cats, channelId, ws)
      && listener.issued == issued0 + HandleSet(listeners)
      && listener.live == live0 + HandleSet(listeners)
      && listener.removed == removed0
    }

    /** One of the CONNECT handler's tests: if `listenTo` includes the
        category's name, `listeners.push(listener.subscribeTo…Events(channelId, …))`. */
    method SubscribeIfListed(category: Category, channelId: string, ws: Socket, listenTo: seq<string>,
                             listeners: seq<Handle>, ghost first: nat, ghost cats: seq<Category>,
                             ghost issued0: set<Handle>, ghost live0: set<Handle>, ghost removed0: seq<Handle>)
      returns (pushed: seq<Handle>)
      requires Building(first, cats, channelId, ws, listeners, issued0, live0, removed0)
      modifies listener
      ensures Building(first, cats + Listed(category, listenTo), channelId, ws, pushed, issued0, live0, removed0)
    {
      pushed := listeners;
      if Name(category) in listenTo {
        var h := listener.Subscribe(category, channelId, ws);
        Pushed(first, cats, listeners, category, channelId, ws);
        pushed := listeners + [h];
      } else {
        assert cats + Listed(category, listenTo) == cats;
      }
    }

    /** `removeListener(client)`: remove each of the record's handles once, in
        list order, clear its timer and close its connection. */
    method RemoveListener(client: Client)
      requires Valid() && client in created
      modifies this`wire, listener, client
      ensures Valid()
      ensures listener.live == old(listener.live) - HandleSet(client.listeners)
      ensures listener.removed == old(listener.removed) + client.listeners
      ensures listener.issued == old(listener.issued) && listener.next == old(listener.next)
      ensures !client.ticking && client.lastPing == old(client.lastPing)
      ensures wire == old(wire) + [Close(client.ws)]
    {
      var hs := client.listeners;
      for i := 0 to |hs|
        modifies listener
        invariant listener.Valid()
        invariant listener.live == old(listener.live) - HandleSet(hs[..i])
        invariant listener.removed == old(listener.removed) + hs[..i]
        invariant listener.issued == old(listener.issued) && listener.next == old(listener.next)
      {
        assert HandleSet(hs[..i + 1]) == HandleSet(hs[..i]) + {hs[i]} by {
          assert hs[..i + 1] == hs[..i] + [hs[i]];
        }
        listener.RemoveListener(hs[i]);
      }
      assert hs[..|hs|] == hs;
      client.ticking := false;
      wire := wire + [Close(client.ws)];
    }

    /** DISCONNECT: a channel never registered is ignored; one mapped to null
        makes the handler throw; otherwise the record is torn down, the key is
        mapped to null (it stays in the dictionary) and the requesting
        connection is closed. */
    method Disconnect(ws: Socket, channelId: string) returns (outcome: Outcome)
      requires Valid()
      modifies this, listener, Entry(channelId)
      ensures Valid() && created == old(created)
      ensures channelId !in old(clients) ==> outcome == Ignored && unchanged(this, listener)
      ensures channelId in old(clients) && old(clients[channelId]) == null ==>
        outcome == NullEntry && unchanged(this, listener)
      ensures channelId in old(clients) && old(clients[channelId]) != null ==>
        var c := old(clients[channelId]);
        && outcome == Applied
        && clients == old(clients)[channelId := null]
        && listener.live == old(listener.live) - HandleSet(c.listeners)
        && listener.removed == old(listener.removed) + c.listeners
        && listener.issued == old(listener.issued) && listener.next == old(listener.next)
        && !c.ticking && c.lastPing == old(c.lastPing)
        && HandleSet(c.listeners) !! listener.live
        && wire == old(wire) + [Close(c.ws), Close(ws)]
    {
      if channelId !in clients {
        return Ignored;
      }
      var c := clients[channelId];
      if c == null {
        return NullEntry;
      }
      RemoveListener(c);
      clients := clients[channelId := null];
      wire := wire + [Close(ws)];
      outcome := Applied;
    }

    /** PONG: refresh the registered record's `lastPing`; nothing else changes. */
    method Pong(channelId: string, now: int) returns (outcome: Outcome)
      requires Valid()
      modifies Entry(channelId)
      ensures Valid() && unchanged(this, listener)
      ensures channelId !in clients ==> outcome == Ignored
      ensures channelId in clients && clients[channelId] == null ==> outcome == NullEntry
      ensures channelId in clients && clients[channelId] != null ==>
        && outcome == Applied
        && clients[channelId].lastPing == now
        && clients[channelId].ticking == old(clients[channelId].ticking)
    {
      if channelId !in clients {
        return Ignored;
      }
      var c := clients[channelId];
      if c == null {
        return NullEntry;
      }
      c.lastPing := now;
      outcome := Applied;
    }

    /** One firing of a record's interval timer. A stale record releases its
        handles and clears its timer, but stays registered; PING is sent on
        every firing, the releasing one included. A cleared timer never fires. */
    method Tick(client: Client, now: int)
      requires Valid() && client in created
      modifies this`wire, listener, client
      ensures Valid() && clients == old(clients)
      ensures !old(client.ticking) ==> unchanged(listener, client) && wire == old(wire)
      ensures old(client.ticking) && IsStale(now, old(client.lastPing)) ==>
        && listener.live == old(listener.live) - HandleSet(client.listeners)
        && listener.removed == old(listener.removed) + client.listeners
        && listener.issued == old(listener.issued) && listener.next == old(listener.next)
        && !client.ticking && client.lastPing == old(client.lastPing)
        && wire == old(wire) + [Close(client.ws), Send(client.ws, Ping)]
      ensures old(client.ticking) && !IsStale(now, old(client.lastPing)) ==>
        unchanged(listener, client) && wire == old(wire) + [Send(client.ws, Ping)]
    {
      if !client.ticking {
        return;
      }
      if IsStale(now, client.lastPing) {
        RemoveListener(client);
      }
      wire := wire + [Send(client.ws, Ping)];
    }

    /** The callback of handle `h` receiving an event: a live subscription
        sends the event's message to the connection that created it. */
    method Deliver(h: Handle, e: Event)
      modifies this`wire
      ensures wire == old(wire) +
        (if h in listener.live && CategoryOf(e) == h.category then [Send(h.target, Shape(e))] else [])
    {
      if h in listener.live && CategoryOf(e) == h.category {
        wire := wire + [Send(h.target, Shape(e))];
      }
    }

    /** The `message` handler: dispatch on `type`; anything other than
        CONNECT, DISCONNECT or PONG is ignored. Each branch promises what the
        operation it dispatches to promises. */
    method OnMessage(ws: Socket, msg: ClientMessage, now: int) returns (outcome: Outcome)
      requires Valid()
      modifies this, listener, Entry(msg.channelId)
      ensures Valid()
      ensures outcome != Applied ==> unchanged(this, listener)
      ensures msg.kind != "DISCONNECT" && msg.kind != "PONG" ==> unchanged(old(Entry(msg.channelId)))
      ensures msg.kind !in {"CONNECT", "DISCONNECT", "PONG"} ==> outcome == Ignored
      // CONNECT
      ensures msg.kind == "CONNECT" && msg.listenTo.None? ==> outcome == NoListenTo
      ensures msg.kind == "CONNECT" && msg.listenTo.Some? ==>
        && outcome == Applied && msg.channelId in clients
        && var client := clients[msg.channelId];
        && client != null && fresh(client)
        && clients == old(clients)[msg.channelId := client]
        && client.ws == ws && client.channelId == msg.channelId
        && client.lastPing == now && client.ticking
        && client.listeners == Opened(old(listener.next), Requested(msg.listenTo.value), msg.channelId, ws)
        && HandleSet(client.listeners) !! old(listener.issued)
        && listener.issued == old(listener.issued) + HandleSet(client.listeners)
        && listener.next == old(listener.next) + |client.listeners|
        && listener.live == old(listener.live) + HandleSet(client.listeners)
        && listener.removed == old(listener.removed)
        && created == old(created) + {client} && wire == old(wire)
      ensures msg.kind == "CONNECT" ==> forall c :: c in old(created) ==> c.ticking == old(c.ticking)
      ensures msg.kind == "CONNECT" && msg.listenTo.Some? && msg.channelId in old(clients)
              && old(clients[msg.channelId]) != null && old(clients[msg.channelId].ticking) ==>
        HandleSet(old(clients[msg.channelId]).listeners) <= listener.live
      // DISCONNECT
      ensures msg.kind == "DISCONNECT" ==> created == old(created)
      ensures msg.kind == "DISCONNECT" && msg.channelId !in old(clients) ==> outcome == Ignored
      ensures msg.kind == "DISCONNECT" && msg.channelId in old(clients) && old(clients[msg.channelId]) == null ==>
        outcome == NullEntry
      ensures msg.kind == "DISCONNECT" && msg.channelId in old(clients) && old(clients[msg.channelId]) != null ==>
        var c := old(clients[msg.channelId]);
        && outcome == Applied
        && clients == old(clients)[msg.channelId := null]
        && listener.live == old(listener.live) - HandleSet(c.listeners)
        && listener.removed == old(listener.removed) + c.listeners
        && listener.issued == old(listener.issued) && listener.next == old(listener.next)
        && !c.ticking && c.lastPing == old(c.lastPing)
        && HandleSet(c.listeners) !! listener.live
        && wire == old(wire) + [Close(c.ws), Close(ws)]
      // PONG
      ensures msg.kind == "PONG" ==> unchanged(this, listener)
      ensures msg.kind == "PONG" && msg.channelId !in clients ==> outcome == Ignored
      ensures msg.kind == "PONG" && msg.channelId in clients && clients[msg.channelId] == null ==>
        outcome == NullEntry
      ensures msg.kind == "PONG" && msg.channelId in clients && clients[msg.channelId] != null ==>
        && outcome == Applied
        && clients[msg.channelId].lastPing == now
        && clients[msg.channelId].ticking == old(clients[msg.channelId].ticking)
    {
      if msg.kind == "CONNECT" {
        var client;
        outcome, client := Connect(ws, msg.channelId, msg.listenTo, now);
      } else if msg.kind == "DISCONNECT" {
        outcome := Disconnect(ws, msg.channelId);
      } else if msg.kind == "PONG" {
        outcome := Pong(msg.channelId, now);
      } else {
        outcome := Ignored;
      }
    }
  }

  /** A bot's session driven only through the `message` handler: CONNECT
      under `a`, CONNECT under `b`, then DISCONNECT of `a`. Both records get
      registered. The DISCONNECT releases every handle `a`'s CONNECT opened
      and leaves `b`'s record and handles alone. */
  method Session(listener: EventSubListener, ws: Socket, a: string, b: string,
                 listenTo: seq<string>, now: int)
    returns (hub: Hub, ca: Client, cb: Client)
    requires listener.Valid() && a != b
    modifies listener
    ensures hub.Valid() && hub.listener == listener
    ensures a in hub.clients && hub.clients[a] == null
    ensures b in hub.clients && hub.clients[b] == cb && cb.ticking
    ensures |ca.listeners| == |cb.listeners| == |Requested(listenTo)|
    ensures HandleSet(ca.listeners) !! listener.live
    ensures HandleSet(cb.listeners) <= listener.live
    ensures listener.removed == old(listener.removed) + ca.listeners
  {
    hub := new Hub(listener);
    var o1 := hub.OnMessage(ws, ClientMessage("CONNECT", a, Some(listenTo)), now);
    ca := hub.clients[a];
    var o2 := hub.OnMessage(ws, ClientMessage("CONNECT", b, Some(listenTo)), now);
    cb := hub.clients[b];
    var o3 := hub.OnMessage(ws, ClientMessage("DISCONNECT", a, None), now);
  }

  /** A second CONNECT under the same channel, through the `message` handler,
      overwrites the first record without tearing it down. PONG then refreshes
      only the new record, so the first record's own timer finds it stale and
      releases its handles, while the new record keeps its handles live. */
  method ReplacedGoesStale(listener: EventSubListener, ws1: Socket, ws2: Socket, k: string,
                           listenTo: seq<string>, now: int)
    returns (hub: Hub, c1: Client, c2: Client)
    requires listener.Valid()
    modifies listener
    ensures hub.Valid() && hub.listener == listener
    ensures k in hub.clients && hub.clients[k] == c2 && c1 != c2
    ensures !c1.ticking && HandleSet(c1.listeners) !! listener.live
    ensures c2.ticking && c2.lastPing == now + StaleMs && HandleSet(c2.listeners) <= listener.live
  {
    hub := new Hub(listener);
    var o1 := hub.OnMessage(ws1, ClientMessage("CONNECT", k, Some(listenTo)), now);
    c1 := hub.clients[k];
    var o2 := hub.OnMessage(ws2, ClientMessage("CONNECT", k, Some(listenTo)), now);
    c2 := hub.clients[k];
    var o3 := hub.OnMessage(ws2, ClientMessage("PONG", k, None), now + StaleMs);
    hub.Tick(c1, now + StaleMs + 1);
  }
}
