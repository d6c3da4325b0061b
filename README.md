# streamcrabs-hook: the connection hub

This project models the bot-facing side of the streamcrabs hook server
(`server.js`). The server keeps a dictionary `clients` that maps a Twitch
channel id to a client record. A bot talks to it over a WebSocket:

- **CONNECT** subscribes to the requested event categories and installs a new
  record. The categories are FOLLOW, ONLINE, OFFLINE, SUB, CHEER and
  REDEMPTION, and they are always subscribed in that order. The record holds
  the connection, the subscription handles, `lastPing` and a 30-second
  interval timer.
- **DISCONNECT** releases the record's handles, clears its timer, closes both
  connections and maps the key to `null`.
- **PONG** refreshes `lastPing`.
- **Any other type** is ignored.

When a timer fires, it checks whether more than 60000 ms have passed since
`lastPing`. If so, it releases the record's handles. It sends PING to the bot
every time, including on the tick that released the record. Each
subscription's callback turns a Twitch event into one outbound JSON message.

The model has two modules:

- `protocol.dfy` (module `Protocol`) holds the value computations:
  - `Requested`: which categories a `listenTo` list subscribes, and in what order.
  - `Shape`: the outbound message for each event, as a JSON object whose members appear in the object literal's order.
  - `Parse`: the bot-side reading of a message, which is the partner for the round-trip lemma.
  - The heartbeat message `Ping`.
  - `IsStale`: the staleness test.
- `server.dfy` (module `Server`) holds the state:
  - `EventSubListener` abstracts the Twitch listener as the handles it has issued, the live handles, and the log of removed handles.
  - `Client` is the record that CONNECT creates.
  - `Hub` owns `clients`. It also keeps a ghost log `wire` of every send and close performed on a connection.

The hub's invariant `Hub.Valid` covers every record CONNECT has ever created,
including replaced ones:

- Each record's handles belong to no other record.
- While a record's timer runs, all of its handles are live. Once the timer is
  cleared, none of them are. Teardown is all-or-nothing.

The model follows the code as written, including where it behaves differently
from what a reader might expect of a connection hub:

- CONNECT overwrites an existing record without tearing it down
  (server.js:157). It does not release the old record's subscriptions first.
  In the model, the replaced record keeps its live handles and its running timer.
  Its timer captures the record itself, not the key. So the replaced record
  goes stale on its own, because PONG now refreshes only the new record. The
  replaced record's tick then releases its handles and closes the connection
  it was created on.
- DISCONNECT leaves the key mapped to `null` (server.js:167). A second
  DISCONNECT or PONG for that key passes the `in` test and then dereferences
  `null`, which throws a TypeError. The model returns the outcome `NullEntry`
  and changes nothing.
- A silent bot is not evicted on the first tick after 60 s of silence, when
  ticks are exactly 30000 ms apart. The timer's phase is fixed at CONNECT, and
  a PONG arrives some `d` ms after a tick, with `0 <= d < 30000`. The n-th tick after the PONG therefore comes
  `30000 n - d` ms after it. The second tick sees at most 60000 ms, which the
  strict test `> 60000` does not count as stale. The first tick that evicts
  is the third one, between 60 and 90 s after the last PONG
  (`Protocol.StaleFromThirdTick`). Real timers fire late, never early, so a
  late second tick can already see more than 60000 ms and evict.
- A stale tick does not remove or null the registry entry (server.js:148-151).
- The code has no handler for a transport closing. A record is torn down only
  by DISCONNECT or by staleness.

## Model

| member | source | states |
|---|---|---|
| `Protocol.RequestedMembership` | server.js:54-137 | CONNECT subscribes a category exactly when its name occurs in `listenTo` (both directions) |
| `Protocol.RequestedInOrder` | server.js:54-137 | subscriptions come in the fixed order FOLLOW, ONLINE, OFFLINE, SUB, CHEER, REDEMPTION, with no category twice and at most six |
| `Protocol.RequestedIgnoresExtra` | server.js:55-123 | appending an unknown name, or a name already present, to `listenTo` changes nothing, because membership is tested with `includes` |
| `Protocol.RequestedFollowOnline` | server.js:54-75 | `["FOLLOW", "ONLINE"]` subscribes FOLLOW then ONLINE and nothing else |
| `Protocol.RequestedUnfolded` | server.js:54-137 | the requested list is the concatenation of the six `includes` tests, in source order |
| `Protocol.PickStep` | server.js:54-137 | each further test appends its category when it is listed and nothing otherwise |
| `Protocol.PickMembership` | server.js:54-137 | a category is picked iff it is among those tested and its name is listed |
| `Protocol.PickInOrder` | server.js:54-137 | picking keeps the testing order |
| `Protocol.PickIgnores` | server.js:54-137 | picking is unaffected by an extra name that is a duplicate or that names no tested category |
| `Protocol.PickShorter` | server.js:54-137 | no more handles than categories tested |
| `Protocol.Shape` | server.js:56-136 | an event message's members are `type` followed by exactly the fields listed for its category, and `type` is the category's name |
| `Protocol.ShapeKeysDistinct` | server.js:57-135 | no member name occurs twice in an event message |
| `Protocol.ShapeRoundTrip` | server.js:57-135 | reading a message back by `type` and member names gives the event it was made from, so every destructured field is carried under its own name |
| `Protocol.FollowRoundTrip` | server.js:56-63 | FOLLOW carries userId, userName, broadcasterId and broadcasterName |
| `Protocol.BroadcastRoundTrip` | server.js:68-83 | ONLINE and OFFLINE carry broadcasterId and broadcasterName |
| `Protocol.SubRoundTrip` | server.js:98-106 | SUB carries broadcasterId, broadcasterName, userId, userName and subPlan |
| `Protocol.CheerRoundTrip` | server.js:111-119 | CHEER carries broadcasterId, broadcasterName, userId, userName and bits |
| `Protocol.RedemptionRoundTrip` | server.js:124-135 | REDEMPTION carries broadcasterId, broadcasterName, userId, userName, id, rewardId, rewardTitle and rewardCost |
| `Protocol.GetFirst` | server.js:57-135 | a member whose name no earlier member shares is the one found by name |
| `Protocol.SubPlanIsTier` | server.js:98-105 | SUB's `subPlan` is the event's `tier` |
| `Protocol.PingIsBare` | server.js:152-154 | the heartbeat is `{type: "PING"}` with no other member and is not an event message |
| `Protocol.StaleBoundary` | server.js:148 | exactly 60000 ms since the last PONG is not stale, and 60001 ms is |
| `Protocol.StaleFromThirdTick` | server.js:146-155 | when the last PONG (or CONNECT, `d = 0`) came `d` ms after a tick, with `0 <= d < 30000`, the n-th tick after it (`30000 n - d` ms later) finds the record stale iff n >= 3 |
| `Server.OneHandlePerCategory` | server.js:54-137 | CONNECT's handles are pairwise distinct, with one per listed category and never two for the same category |
| `Server.Pushed` | server.js:54-137 | pushing the next subscription extends the opened handles by one |
| `Server.EventSubListener.constructor` | server.js:15-26 | the listener starts with no handles |
| `Server.EventSubListener.Subscribe` | server.js:56 | subscribing yields a new live handle, distinct from every handle issued before |
| `Server.EventSubListener.RemoveListener` | server.js:39 | removing a handle makes it not live and logs the removal |
| `Server.Client.constructor` | server.js:139-146 | a new record holds the connection, the channel id and the handles, with `lastPing = now` and its timer scheduled |
| `Server.Hub.constructor` | server.js:34 | the registry starts empty |
| `Server.Hub.Connect` | server.js:53-159 | without `listenTo`, nothing changes (TypeError). Otherwise a fresh record is installed under `channelId` with `lastPing = now` and its timer running, holding exactly one new handle per requested category in the fixed order. The listener has issued exactly these handles and made them live, and removed none. Other entries are unchanged, and nothing is sent or closed. The handles of a replaced record stay live and its timer keeps running |
| `Server.Hub.Open` | server.js:54-137 | the handle list is the requested categories' new handles in order. The listener gains exactly these as live handles and removes none |
| `Server.Hub.SubscribeIfListed` | server.js:55-65 | one `includes` test: a listed category adds one new live handle at the end of the list, and an unlisted one adds nothing |
| `Server.Hub.RemoveListener` | server.js:36-43 | every handle of the record is removed once, in list order. The timer is cleared and the record's connection closed. The registry and the other records' handles are untouched |
| `Server.Hub.Disconnect` | server.js:160-169 | an unknown channel changes nothing. A null entry throws (NullEntry) and changes nothing. Otherwise the record is torn down (no handle of it left live), the key stays present mapped to null, other entries are unchanged, no handle is issued, and both the record's connection and the requesting connection are closed |
| `Server.Hub.Pong` | server.js:170-176 | an unknown channel changes nothing and a null entry throws. Otherwise only that record's `lastPing` becomes `now`. Registry, handles and timers are unchanged |
| `Server.Hub.Tick` | server.js:146-155 | a cleared timer does nothing. A stale record (`now - lastPing > 60000`) has all its handles removed and its timer cleared, but stays registered. PING is sent on every firing, the releasing one included |
| `Server.Hub.Deliver` | server.js:56-136 | a live handle's callback sends exactly the event's message to the connection whose CONNECT created it. A removed handle sends nothing |
| `Server.Hub.OnMessage` | server.js:47-179 | dispatch on `type`. Each of CONNECT, DISCONNECT and PONG carries the full contract of `Connect`, `Disconnect` and `Pong` above, including what stays unchanged. Anything else is ignored. Every outcome other than Applied leaves the hub and the listener unchanged. Every type other than DISCONNECT and PONG leaves the record registered under `channelId` unchanged |
| `Server.Session` | server.js:47-179 | two CONNECTs under different channels and then a DISCONNECT of the first, all through the `message` handler. Both records get registered. The DISCONNECT maps the first channel to null and releases exactly the first record's handles, in order. The second record stays registered, with its timer running and its handles live |
| `Server.ReplacedGoesStale` | server.js:146-175 | through the `message` handler, a second CONNECT under the same channel replaces the first record without tearing it down. A PONG then refreshes only the new record. The first record's own timer then finds it stale, clears itself and releases that record's handles, while the new record stays registered, ticking and live |

## Left out

- Parsing of raw frames (server.js:48) is not modelled. Handlers take an already-decoded `ClientMessage`. In the code, a malformed frame makes `JSON.parse` throw inside the handler.
- A `listenTo` that is not a list is not modelled. It is either a list of names or absent. In JavaScript, a string `listenTo` would make `includes` a substring test.
- Channel ids that name a property of `Object.prototype` (for example `toString`) are not modelled. In the code, the `in` test finds such properties.
- Twitch authentication, `ApiClient`, the listener's construction and `listen()` (server.js:1-28) are external library setup. The listener appears only through `Subscribe` and `RemoveListener` on ghost sets of handles.
- The WebSocket server and the real effect of `ws.send` and `ws.close` are transport I/O. The model only records each send and close in the ghost `wire` log. It does not capture what a send on a closed connection does.
- `setInterval`, `clearInterval` and `Date.now()` are not modelled as real timers. A timer is the `ticking` flag, a firing is an explicit `Tick`, and the time is a `now` parameter. The model does not force ticks to be 30000 ms apart. `StaleFromThirdTick` states what evenly spaced ticks imply.
- The process-level effect of an unhandled TypeError (server.js:48, 55, 165, 175) is not modelled. Such an error rejects the async handler's promise. The model reports it as an `Outcome` with unchanged state.
- Logging via `console.log` is not modelled.
- The commented-out subscription (server.js:88-97) is not modelled.
- `EventSubListener.Subscribe` and `EventSubListener.RemoveListener` never fail in the model. In the code, a throw from a `subscribeTo…` call aborts CONNECT, leaving the handles subscribed so far live and installing no record. A throw inside the loop at server.js:38-40 skips `clearInterval` and `ws.close`. `Hub.Valid`'s all-or-nothing teardown depends on both calls succeeding.
- The listener's delivery guarantees (at-least-once, out-of-order delivery) are not modelled. `Deliver` models one callback invocation.
- `Event` types its fields as strings, except that `bits` and `rewardCost` are integers. The code passes through whatever the listener provides.
- Concurrency is not modelled, because the code runs on one event loop.
