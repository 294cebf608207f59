/**
 * Delivery of one notification to one contestant: the push-subscription
 * lookup behind `pushSubscriptionCache`, the classification of a push
 * service's answer, and the order in which subscriptions are tried. The Web
 * Push send itself (payload encryption, VAPID signing, the HTTP exchange) is a
 * given function that reports either a failure or an HTTP status.
 */
module Push {
  import opened Wrappers
  import opened Types

  /** What one attempt to send yields: a marshalling or transport failure, or the response status. */
  datatype SendOutcome = MarshalFailed | TransportFailed | Response(status: int)

  /** `proto.Marshal` followed by `webpush.SendNotification` for one subscription. */
  type PushService = (Notification, PushSubscription) -> SendOutcome

  /** The errors `SendWebPush` returns. */
  datatype SendError = MarshalError | SendNotificationError | ExpiredNotification | InvalidNotification

  /** HTTP 410 Gone: the subscription has expired. */
  const StatusGone: int := 410
  /** HTTP 404 Not Found: the subscription is not known to the push service. */
  const StatusNotFound: int := 404

  /** Send to one subscription and classify the answer; every status but 410 and 404 is a success. */
  function SendWebPush(push: PushService, n: Notification, sub: PushSubscription): (r: Option<SendError>)
    ensures r == Some(ExpiredNotification) <==> push(n, sub) == Response(StatusGone)
    ensures r == Some(InvalidNotification) <==> push(n, sub) == Response(StatusNotFound)
    ensures r == Some(MarshalError) <==> push(n, sub) == MarshalFailed
    ensures r == Some(SendNotificationError) <==> push(n, sub) == TransportFailed
    ensures r.None? <==> push(n, sub).Response? && push(n, sub).status != StatusGone && push(n, sub).status != StatusNotFound
  {
    match push(n, sub)
    case MarshalFailed => Some(MarshalError)
    case TransportFailed => Some(SendNotificationError)
    case Response(status) =>
      if status == StatusGone then Some(ExpiredNotification)
      else if status == StatusNotFound then Some(InvalidNotification)
      else None
  }

  /** The position of the first subscription whose send fails, or `|subs|` when none does. */
  function FirstFailure(push: PushService, n: Notification, subs: seq<PushSubscription>): (i: nat)
    ensures i <= |subs|
    ensures forall j :: 0 <= j < i ==> SendWebPush(push, n, subs[j]).None?
    ensures i < |subs| ==> SendWebPush(push, n, subs[i]).Some?
    decreases |subs|
  {
    if subs == [] then 0
    else if SendWebPush(push, n, subs[0]).Some? then 0
    else 1 + FirstFailure(push, n, subs[1..])
  }

  /** The rows of `push_subscriptions` whose `contestant_id` is `contestantId`, in table order. */
  function SubscriptionsOf(rows: seq<PushSubscription>, contestantId: string): (r: seq<PushSubscription>)
    ensures |r| <= |rows|
    ensures forall s :: s in r <==> s in rows && s.contestantId == contestantId
  {
    if rows == [] then []
    else
      var rest := SubscriptionsOf(rows[1..], contestantId);
      assert forall s :: s in rows ==> s == rows[0] || s in rows[1..];
      if rows[0].contestantId == contestantId then [rows[0]] + rest else rest
  }

  /** No two subscriptions share an id. */
  predicate DistinctSubscriptionIds(subs: seq<PushSubscription>) {
    forall i, j :: 0 <= i < j < |subs| ==> subs[i].id != subs[j].id
  }

  /** Each matching row is selected once: from a table keyed by id, no subscription is listed, and pushed to, twice. */
  lemma {:induction false} NoSubscriptionTwice(rows: seq<PushSubscription>, contestantId: string)
    requires DistinctSubscriptionIds(rows)
    ensures DistinctSubscriptionIds(SubscriptionsOf(rows, contestantId))
    decreases |rows|
  {
    if rows != [] {
      NoSubscriptionTwice(rows[1..], contestantId);
      var rest := SubscriptionsOf(rows[1..], contestantId);
      forall s | s in rest
        ensures s.id != rows[0].id
      {
        var j :| 0 <= j < |rows[1..]| && rows[1..][j] == s;
        assert rows[j + 1] == s;
      }
      if rows[0].contestantId == contestantId {
        var r := [rows[0]] + rest;
        forall i, j | 0 <= i < j < |r|
          ensures r[i].id != r[j].id
        {
          if i == 0 {
            assert r[j] == rest[j - 1] && rest[j - 1] in rest;
          } else {
            assert r[i] == rest[i - 1] && r[j] == rest[j - 1];
          }
        }
      }
    }
  }

  /** Every cached subscription list holds only subscriptions of the contestant it is keyed by. */
  predicate SubscriptionsFit(cache: map<string, seq<PushSubscription>>) {
    forall id :: id in cache ==> forall s :: s in cache[id] ==> s.contestantId == id
  }

  /** The error `GetPushSubscriptions` returns. */
  datatype LookupError = SelectPushSubscriptionsFailed

  /** The subscriptions a lookup yields, and the cache as it stands afterwards. */
  datatype SubscriptionLookup = SubscriptionLookup(
    result: Result<seq<PushSubscription>, LookupError>,
    cache: map<string, seq<PushSubscription>>)

  /**
   * Load the contestant's subscriptions from the cache; on a miss run the
   * SELECT and store its result. `sql.ErrNoRows` counts as an empty success and
   * is stored; any other error is returned and nothing is stored.
   */
  function LookupSubscriptions(cache: map<string, seq<PushSubscription>>, store: Store, contestantId: string): (r: SubscriptionLookup)
    ensures r.result.Err? <==> contestantId !in cache && !store.reachable
    ensures r.cache.Keys == if r.result.Ok? then cache.Keys + {contestantId} else cache.Keys
    ensures r.result.Ok? ==> r.cache[contestantId] == r.result.value
    ensures forall id :: id in cache ==> r.cache[id] == cache[id]
    ensures contestantId !in cache && store.reachable ==>
      r.result == Ok(SubscriptionsOf(store.pushSubscriptions, contestantId))
    ensures SubscriptionsFit(cache) ==> SubscriptionsFit(r.cache)
  {
    if contestantId in cache then SubscriptionLookup(Ok(cache[contestantId]), cache)
    else match Select(store, SubscriptionsOf(store.pushSubscriptions, contestantId))
      case Rows(subs) => SubscriptionLookup(Ok(subs), cache[contestantId := subs])
      case NoRows => SubscriptionLookup(Ok([]), cache[contestantId := []])
      case QueryFailed => SubscriptionLookup(Err(SelectPushSubscriptionsFailed), cache)
  }

  /** A "no rows" answer is an empty success and is cached, so the next lookup is a hit. */
  lemma NoRowsCachedAsEmpty(cache: map<string, seq<PushSubscription>>, store: Store, later: Store, contestantId: string)
    requires contestantId !in cache
    requires Select(store, SubscriptionsOf(store.pushSubscriptions, contestantId)).NoRows?
    ensures LookupSubscriptions(cache, store, contestantId) == SubscriptionLookup(Ok([]), cache[contestantId := []])
    ensures LookupSubscriptions(cache[contestantId := []], later, contestantId).result == Ok([])
  {
  }

  /** A cached subscription list is served without a query, whatever the store holds. */
  lemma SubscriptionHitIgnoresStore(cache: map<string, seq<PushSubscription>>, store: Store, contestantId: string)
    requires contestantId in cache
    ensures LookupSubscriptions(cache, store, contestantId) == SubscriptionLookup(Ok(cache[contestantId]), cache)
  {
  }

  /** The error `webPush` returns. */
  datatype PushError = GetPushSubscriptionsFailed(lookup: LookupError) | SendWebPushFailed(send: SendError)
}
