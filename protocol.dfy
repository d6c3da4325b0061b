/**
 * The client protocol of the hook server: the event categories a bot can ask
 * for, which categories a CONNECT request actually subscribes, the shape of
 * every outbound message, and the liveness test run by each client's timer.
 * Everything here is a value computation; the registry that uses it lives in
 * module Server.
 */
module Protocol {

  datatype Option<T> = None | Some(value: T)

  // ---------------------------------------------------------------------------
  // Event categories and the CONNECT request
  // ---------------------------------------------------------------------------

  datatype Category = Follow | Online | Offline | Sub | Cheer | Redemption

  /** The order in which the CONNECT handler tests `listenTo` and pushes handles. */
  const CategoryOrder: seq<Category> := [Follow, Online, Offline, Sub, Cheer, Redemption]

  /** The name a bot writes in `listenTo`, which is also the outbound `type`. */
  function Name(c: Category): string {
    match c
    case Follow => "FOLLOW"
    case Online => "ONLINE"
    case Offline => "OFFLINE"
    case Sub => "SUB"
    case Cheer => "CHEER"
    case Redemption => "REDEMPTION"
  }

  /** Position of a category in CategoryOrder. */
  function Rank(c: Category): nat {
    match c
    case Follow => 0
    case Online => 1
    case Offline => 2
    case Sub => 3
    case Cheer => 4
    case Redemption => 5
  }

  predicate IsCategoryName(s: string) {
    exists c: Category :: Name(c) == s
  }

  /** Strictly increasing in Rank: in CategoryOrder's order and without repeats. */
  predicate InOrder(cats: seq<Category>) {
    forall i, j :: 0 <= i < j < |cats| ==> Rank(cats[i]) < Rank(cats[j])
  }

  /** What one `includes` test contributes: the category if its name is listed. */
  function Listed(c: Category, listenTo: seq<string>): seq<Category> {
    if Name(c) in listenTo then [c] else []
  }

  /** The categories of `cats` whose name `listenTo` includes, kept in order:
      each one tested in turn and pushed at the end. */
  function Pick(cats: seq<Category>, listenTo: seq<string>): seq<Category> {
    if cats == [] then []
    else Pick(cats[..|cats| - 1], listenTo) + Listed(cats[|cats| - 1], listenTo)
  }

  /** The categories a CONNECT with this `listenTo` subscribes, in subscription order. */
  function Requested(listenTo: seq<string>): seq<Category> {
    Pick(CategoryOrder, listenTo)
  }

  lemma {:induction false} PickMembership(cats: seq<Category>, listenTo: seq<string>, c: Category)
    ensures c in Pick(cats, listenTo) <==> c in cats && Name(c) in listenTo
  {
    if cats != [] {
      var front := cats[..|cats| - 1];
      PickMembership(front, listenTo, c);
      assert cats == front + [cats[|cats| - 1]];
    }
  }

  lemma {:induction false} PickInOrder(cats: seq<Category>, listenTo: seq<string>)
    requires InOrder(cats)
    ensures InOrder(Pick(cats, listenTo))
  {
    if cats != [] {
      var n := |cats| - 1;
      var front := cats[..n];
      assert InOrder(front) by {
        forall i, j | 0 <= i < j < |front| ensures Rank(front[i]) < Rank(front[j]) {
          assert front[i] == cats[i] && front[j] == cats[j];
        }
      }
      PickInOrder(front, listenTo);
      var picked := Pick(front, listenTo);
      forall k | 0 <= k < |picked|
        ensures Rank(picked[k]) < Rank(cats[n])
      {
        PickMembership(front, listenTo, picked[k]);
        var j :| 0 <= j < |front| && front[j] == picked[k];
        assert front[j] == cats[j];
      }
    }
  }

  lemma {:induction false} PickIgnores(cats: seq<Category>, listenTo: seq<string>, s: string)
    requires s in listenTo || forall c :: c in cats ==> Name(c) != s
    ensures Pick(cats, listenTo + [s]) == Pick(cats, listenTo)
  {
    if cats != [] {
      var n := |cats| - 1;
      assert cats[n] in cats;
      assert Listed(cats[n], listenTo + [s]) == Listed(cats[n], listenTo);
      forall c | c in cats[..n] ensures c in cats { }
      PickIgnores(cats[..n], listenTo, s);
    }
  }

  /** A category is subscribed exactly when its name occurs in `listenTo`. */
  lemma RequestedMembership(listenTo: seq<string>, c: Category)
    ensures c in Requested(listenTo) <==> Name(c) in listenTo
  {
    PickMembership(CategoryOrder, listenTo, c);
    assert c == CategoryOrder[Rank(c)];
  }

  /** Subscriptions follow the fixed order FOLLOW, ONLINE, OFFLINE, SUB, CHEER,
      REDEMPTION, so no category is subscribed twice and there are at most six. */
  lemma RequestedInOrder(listenTo: seq<string>)
    ensures InOrder(Requested(listenTo))
    ensures |Requested(listenTo)| <= |CategoryOrder|
  {
    PickInOrder(CategoryOrder, listenTo);
    PickShorter(CategoryOrder, listenTo);
  }

  lemma {:induction false} PickShorter(cats: seq<Category>, listenTo: seq<string>)
    ensures |Pick(cats, listenTo)| <= |cats|
  {
    if cats != [] {
      PickShorter(cats[..|cats| - 1], listenTo);
    }
  }

  /** An unknown name, or a name already present, adds no subscription:
      the handler tests membership with `includes`. */
  lemma RequestedIgnoresExtra(listenTo: seq<string>, s: string)
    requires s in listenTo || !IsCategoryName(s)
    ensures Requested(listenTo + [s]) == Requested(listenTo)
  {
    PickIgnores(CategoryOrder, listenTo, s);
  }

  /** Requested spelled out as the CONNECT handler's six successive tests. */
  lemma RequestedUnfolded(listenTo: seq<string>)
    ensures Requested(listenTo)
         == [] + Listed(Follow, listenTo) + Listed(Online, listenTo) + Listed(Offline, listenTo)
          + Listed(Sub, listenTo) + Listed(Cheer, listenTo) + Listed(Redemption, listenTo)
  {
    PickStep(listenTo, 0);
    PickStep(listenTo, 1);
    PickStep(listenTo, 2);
    PickStep(listenTo, 3);
    PickStep(listenTo, 4);
    PickStep(listenTo, 5);
    assert CategoryOrder[..6] == CategoryOrder;
  }

  /** One more `includes` test: the first k + 1 categories pick what the first
      k pick, then the (k + 1)-th if it is listed. */
  lemma PickStep(listenTo: seq<string>, k: nat)
    requires k < |CategoryOrder|
    ensures Pick(CategoryOrder[..k + 1], listenTo)
         == Pick(CategoryOrder[..k], listenTo) + Listed(CategoryOrder[k], listenTo)
  {
    assert CategoryOrder[..k + 1][..k] == CategoryOrder[..k];
  }

  /** The request `["FOLLOW", "ONLINE"]` subscribes exactly FOLLOW then ONLINE. */
  lemma RequestedFollowOnline()
    ensures Requested(["FOLLOW", "ONLINE"]) == [Follow, Online]
  {
    var l := ["FOLLOW", "ONLINE"];
    PickStep(l, 0); PickStep(l, 1); PickStep(l, 2); PickStep(l, 3); PickStep(l, 4); PickStep(l, 5);
    assert CategoryOrder[..6] == CategoryOrder;
  }

  // ---------------------------------------------------------------------------
  // Events and outbound messages
  // ---------------------------------------------------------------------------

  /** The fields each subscription callback destructures from its event. */
  datatype Event =
    | FollowEvent(userId: string, userName: string, broadcasterId: string, broadcasterName: string)
    | OnlineEvent(broadcasterId: string, broadcasterName: string)
    | OfflineEvent(broadcasterId: string, broadcasterName: string)
    | SubEvent(broadcasterId: string, broadcasterName: string, userId: string, userName: string, tier: string)
    | CheerEvent(broadcasterId: string, broadcasterName: string, userId: string, userName: string, bits: int)
    | RedemptionEvent(id: string, broadcasterId: string, broadcasterName: string, userId: string,
                      userName: string, rewardId: string, rewardTitle: string, rewardCost: int)

  function CategoryOf(e: Event): Category {
    match e
    case FollowEvent(_, _, _, _) => Follow
    case OnlineEvent(_, _) => Online
    case OfflineEvent(_, _) => Offline
    case SubEvent(_, _, _, _, _) => Sub
    case CheerEvent(_, _, _, _, _) => Cheer
    case RedemptionEvent(_, _, _, _, _, _, _, _) => Redemption
  }

  /** A JSON value as the hub writes it: a string or a number. */
  datatype Value = Str(s: string) | Num(n: int)

  /** A JSON object, its members in the order of the object literal. */
  type Json = seq<(string, Value)>

  function Keys(m: Json): seq<string> {
    seq(|m|, i requires 0 <= i < |m| => m[i].0)
  }

  predicate Distinct(keys: seq<string>) {
    forall i, j :: 0 <= i < j < |keys| ==> keys[i] != keys[j]
  }

  /** The value of the first member named `k`. A JSON parser keeps the last
      member of a repeated name instead; the two agree on every event message,
      whose member names are distinct (ShapeKeysDistinct). */
  function Get(m: Json, k: string): Option<Value> {
    if m == [] then None
    else if m[0].0 == k then Some(m[0].1)
    else Get(m[1..], k)
  }

  /** The members of each outbound event message after `type`, as the wire
      protocol lists them. */
  function Fields(c: Category): seq<string> {
    match c
    case Follow => ["userId", "userName", "broadcasterId", "broadcasterName"]
    case Online => ["broadcasterId", "broadcasterName"]
    case Offline => ["broadcasterId", "broadcasterName"]
    case Sub => ["broadcasterId", "broadcasterName", "userId", "userName", "subPlan"]
    case Cheer => ["broadcasterId", "broadcasterName", "userId", "userName", "bits"]
    case Redemption => ["broadcasterId", "broadcasterName", "userId", "userName",
                        "id", "rewardId", "rewardTitle", "rewardCost"]
  }

  /** The message a subscription callback sends for an event. */
  function Shape(e: Event): (m: Json)
    ensures Keys(m) == ["type"] + Fields(CategoryOf(e))
    ensures m[0].1 == Str(Name(CategoryOf(e)))
  {
    match e
    case FollowEvent(userId, userName, broadcasterId, broadcasterName) =>
      [("type", Str("FOLLOW")), ("userId", Str(userId)), ("userName", Str(userName)),
       ("broadcasterId", Str(broadcasterId)), ("broadcasterName", Str(broadcasterName))]
    case OnlineEvent(broadcasterId, broadcasterName) =>
      [("type", Str("ONLINE")), ("broadcasterId", Str(broadcasterId)),
       ("broadcasterName", Str(broadcasterName))]
    case OfflineEvent(broadcasterId, broadcasterName) =>
      [("type", Str("OFFLINE")), ("broadcasterId", Str(broadcasterId)),
       ("broadcasterName", Str(broadcasterName))]
    case SubEvent(broadcasterId, broadcasterName, userId, userName, tier) =>
      [("type", Str("SUB")), ("broadcasterId", Str(broadcasterId)),
       ("broadcasterName", Str(broadcasterName)), ("userId", Str(userId)),
       ("userName", Str(userName)), ("subPlan", Str(tier))]
    case CheerEvent(broadcasterId, broadcasterName, userId, userName, bits) =>
      [("type", Str("CHEER")), ("broadcasterId", Str(broadcasterId)),
       ("broadcasterName", Str(broadcasterName)), ("userId", Str(userId)),
       ("userName", Str(userName)), ("bits", Num(bits))]
    case RedemptionEvent(id, broadcasterId, broadcasterName, userId, userName, rewardId, rewardTitle, rewardCost) =>
      [("type", Str("REDEMPTION")), ("broadcasterId", Str(broadcasterId)),
       ("broadcasterName", Str(broadcasterName)), ("userId", Str(userId)),
       ("userName", Str(userName)), ("id", Str(id)), ("rewardId", Str(rewardId)),
       ("rewardTitle", Str(rewardTitle)), ("rewardCost", Num(rewardCost))]
  }

  /** The heartbeat every timer tick sends: a `type` and nothing else. */
  const Ping: Json := [("type", Str("PING"))]

  function GetStr(m: Json, k: string): Option<string> {
    match Get(m, k)
    case Some(Str(s)) => Some(s)
    case _ => None
  }

  function GetNum(m: Json, k: string): Option<int> {
    match Get(m, k)
    case Some(Num(n)) => Some(n)
    case _ => None
  }

  /** How a bot reads an event message back: by `type`, then by member name. */
  function Parse(m: Json): Option<Event> {
    match GetStr(m, "type")
    case Some("FOLLOW") => ParseFollow(m)
    case Some("ONLINE") => ParseBroadcast(m, true)
    case Some("OFFLINE") => ParseBroadcast(m, false)
    case Some("SUB") => ParseSub(m)
    case Some("CHEER") => ParseCheer(m)
    case Some("REDEMPTION") => ParseRedemption(m)
    case _ => None
  }

  function ParseFollow(m: Json): Option<Event> {
    var uId, uName := GetStr(m, "userId"), GetStr(m, "userName");
    var bId, bName := GetStr(m, "broadcasterId"), GetStr(m, "broadcasterName");
    if uId.Some? && uName.Some? && bId.Some? && bName.Some?
    then Some(FollowEvent(uId.value, uName.value, bId.value, bName.value))
    else None
  }

  function ParseBroadcast(m: Json, online: bool): Option<Event> {
    var bId, bName := GetStr(m, "broadcasterId"), GetStr(m, "broadcasterName");
    if bId.None? || bName.None? then None
    else if online then Some(OnlineEvent(bId.value, bName.value))
    else Some(OfflineEvent(bId.value, bName.value))
  }

  function ParseSub(m: Json): Option<Event> {
    var bId, bName := GetStr(m, "broadcasterId"), GetStr(m, "broadcasterName");
    var uId, uName := GetStr(m, "userId"), GetStr(m, "userName");
    var plan := GetStr(m, "subPlan");
    if bId.Some? && bName.Some? && uId.Some? && uName.Some? && plan.Some?
    then Some(SubEvent(bId.value, bName.value, uId.value, uName.value, plan.value))
    else None
  }

  function ParseCheer(m: Json): Option<Event> {
    var bId, bName := GetStr(m, "broadcasterId"), GetStr(m, "broadcasterName");
    var uId, uName := GetStr(m, "userId"), GetStr(m, "userName");
    var bits := GetNum(m, "bits");
    if bId.Some? && bName.Some? && uId.Some? && uName.Some? && bits.Some?
    then Some(CheerEvent(bId.value, bName.value, uId.value, uName.value, bits.value))
    else None
  }

  function ParseRedemption(m: Json): Option<Event> {
    var bId, bName := GetStr(m, "broadcasterId"), GetStr(m, "broadcasterName");
    var uId, uName := GetStr(m, "userId"), GetStr(m, "userName");
    var id, rId := GetStr(m, "id"), GetStr(m, "rewardId");
    var title, cost := GetStr(m, "rewardTitle"), GetNum(m, "rewardCost");
    if bId.Some? && bName.Some? && uId.Some? && uName.Some? && id.Some? && rId.Some?
       && title.Some? && cost.Some?
    then Some(RedemptionEvent(id.value, bId.value, bName.value, uId.value, uName.value,
                              rId.value, title.value, cost.value))
    else None
  }

  /** Every event message carries each of its members exactly once. */
  lemma ShapeKeysDistinct(e: Event)
    ensures Distinct(Keys(Shape(e)))
  {
  }

  /** Reading an event message back yields the event it was made from. */
  lemma ShapeRoundTrip(e: Event)
    ensures Parse(Shape(e)) == Some(e)
  {
    var m := Shape(e);
    GetFirst(m, 0);
    assert GetStr(m, "type") == Some(Name(CategoryOf(e)));
    match e
    case FollowEvent(_, _, _, _) => FollowRoundTrip(e);
    case OnlineEvent(_, _) => BroadcastRoundTrip(e);
    case OfflineEvent(_, _) => BroadcastRoundTrip(e);
    case SubEvent(_, _, _, _, _) => SubRoundTrip(e);
    case CheerEvent(_, _, _, _, _) => CheerRoundTrip(e);
    case RedemptionEvent(_, _, _, _, _, _, _, _) => RedemptionRoundTrip(e);
  }

  lemma FollowRoundTrip(e: Event)
    requires e.FollowEvent?
    ensures ParseFollow(Shape(e)) == Some(e)
  {
    var m := Shape(e);
    GetFirst(m, 1); GetFirst(m, 2); GetFirst(m, 3); GetFirst(m, 4);
  }

  lemma BroadcastRoundTrip(e: Event)
    requires e.OnlineEvent? || e.OfflineEvent?
    ensures ParseBroadcast(Shape(e), e.OnlineEvent?) == Some(e)
  {
    var m := Shape(e);
    GetFirst(m, 1); GetFirst(m, 2);
  }

  lemma SubRoundTrip(e: Event)
    requires e.SubEvent?
    ensures ParseSub(Shape(e)) == Some(e)
  {
    var m := Shape(e);
    GetFirst(m, 1); GetFirst(m, 2); GetFirst(m, 3); GetFirst(m, 4); GetFirst(m, 5);
  }

  lemma CheerRoundTrip(e: Event)
    requires e.CheerEvent?
    ensures ParseCheer(Shape(e)) == Some(e)
  {
    var m := Shape(e);
    GetFirst(m, 1); GetFirst(m, 2); GetFirst(m, 3); GetFirst(m, 4); GetFirst(m, 5);
  }

  lemma RedemptionRoundTrip(e: Event)
    requires e.RedemptionEvent?
    ensures ParseRedemption(Shape(e)) == Some(e)
  {
    var m := Shape(e);
    GetFirst(m, 1); GetFirst(m, 2); GetFirst(m, 3); GetFirst(m, 4);
    GetFirst(m, 5); GetFirst(m, 6); GetFirst(m, 7); GetFirst(m, 8);
  }

  /** A member whose name no earlier member shares is what Get finds. */
  lemma {:induction false} GetFirst(m: Json, i: nat)
    requires i < |m|
    requires forall j :: 0 <= j < i ==> m[j].0 != m[i].0
    ensures Get(m, m[i].0) == Some(m[i].1)
  {
    if i > 0 {
      GetFirst(m[1..], i - 1);
    }
  }

  /** SUB's `subPlan` member is the event's `tier`. */
  lemma SubPlanIsTier(e: Event)
    requires e.SubEvent?
    ensures Get(Shape(e), "subPlan") == Some(Str(e.tier))
  {
    GetFirst(Shape(e), 5);
  }

  /** The heartbeat carries `type` alone and is not an event message. */
  lemma PingIsBare()
    ensures Keys(Ping) == ["type"] && Get(Ping, "type") == Some(Str("PING"))
    ensures Parse(Ping) == None
  {
  }

  // ---------------------------------------------------------------------------
  // Liveness
  // ---------------------------------------------------------------------------

  /** Period of each client's timer, in milliseconds. */
  const TickMs := 30000
  /** Silence after which a tick releases the client's subscriptions. */
  const StaleMs := 60000

  /** The timer's test: strictly more than StaleMs since the last PONG. */
  predicate IsStale(now: int, lastPing: int) {
    now - lastPing > StaleMs
  }

  /** Exactly StaleMs of silence is not yet stale; one millisecond more is. */
  lemma StaleBoundary(lastPing: int)
    ensures !IsStale(lastPing + StaleMs, lastPing)
    ensures IsStale(lastPing + StaleMs + 1, lastPing)
  {
  }

  /** The timer's phase is fixed at CONNECT, and the last PONG (or CONNECT
      itself, d = 0) came `d` ms after one of its ticks, before the next. The
      n-th tick after it comes n * TickMs - d ms later, and the first tick
      that finds the client stale is the third one, 60 to 90 seconds after
      the last PONG, not the second. */
  lemma StaleFromThirdTick(lastPing: int, d: int, n: nat)
    requires 0 <= d < TickMs
    ensures IsStale(lastPing - d + n * TickMs, lastPing) <==> n >= 3
  {
  }

  // ---------------------------------------------------------------------------
  // Inbound messages
  // ---------------------------------------------------------------------------

  /** A decoded client frame: its `type`, `channelId` and, when present, `listenTo`. */
  datatype ClientMessage = ClientMessage(kind: string, channelId: string, listenTo: Option<seq<string>>)
}
