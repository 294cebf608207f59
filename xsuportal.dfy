/**
 * The notifier's state and entry points. The package-level `contestantsCache`
 * and `pushSubscriptionCache` are the fields of one `Caches` object; the
 * `Notifier` keeps the memoised push options. Instead of starting a goroutine
 * per recipient, the notify methods return the deliveries they would start;
 * `WebPush` is what one such goroutine does.
 */
module Xsuportal {
  import opened Wrappers
  import opened Types
  import opened Audience
  import opened Messages
  import opened Vapid
  import opened Push

  /** The package-level caches, shared by every notifier. */
  class Caches {
    var contestants: map<CacheKey, seq<Contestant>>
    var pushSubscriptions: map<string, seq<PushSubscription>>

    /** Every cached list belongs to the key it is stored under. */
    predicate Valid()
      reads this
    {
      CacheFits(contestants) && SubscriptionsFit(pushSubscriptions)
    }

    constructor ()
      ensures Valid()
      ensures contestants == map[] && pushSubscriptions == map[]
    {
      contestants := map[];
      pushSubscriptions := map[];
    }

    /** The cache lookup, with a SELECT on a miss, that both notify operations start with. */
    method LoadContestants(store: Store, k: CacheKey) returns (r: Result<seq<Contestant>, QueryError>)
      requires Valid()
      modifies this
      ensures Valid()
      ensures r == Resolve(old(contestants), store, k).audience
      ensures contestants == Resolve(old(contestants), store, k).cache
      ensures pushSubscriptions == old(pushSubscriptions)
    {
      if k in contestants {
        r := Ok(contestants[k]);
      } else {
        var answer := Select(store, AudienceOf(store.contestants, k));
        if !answer.Rows? {
          return Err(SelectContestantsFailed(k));
        }
        contestants := contestants[k := answer.rows];
        r := Ok(answer.rows);
      }
    }

    /** `GetPushSubscriptions`: the contestant's subscriptions, from the cache or the store. */
    method GetPushSubscriptions(store: Store, contestantId: string) returns (r: Result<seq<PushSubscription>, LookupError>)
      requires Valid()
      modifies this
      ensures Valid()
      ensures r == LookupSubscriptions(old(pushSubscriptions), store, contestantId).result
      ensures pushSubscriptions == LookupSubscriptions(old(pushSubscriptions), store, contestantId).cache
      ensures contestants == old(contestants)
    {
      if contestantId in pushSubscriptions {
        r := Ok(pushSubscriptions[contestantId]);
      } else {
        var subscriptions: seq<PushSubscription> := [];
        var answer := Select(store, SubscriptionsOf(store.pushSubscriptions, contestantId));
        if answer.QueryFailed? {
          return Err(SelectPushSubscriptionsFailed);
        }
        if answer.Rows? {
          subscriptions := answer.rows;
        }
        pushSubscriptions := pushSubscriptions[contestantId := subscriptions];
        r := Ok(subscriptions);
      }
    }

    /**
     * `webPush`: look up the contestant's subscriptions and send to each in
     * turn, stopping at the first send that fails. `attempted` lists the
     * subscriptions a send was made to.
     */
    method WebPush(store: Store, push: PushService, n: Notification, contestantId: string)
      returns (err: Option<PushError>, attempted: seq<PushSubscription>)
      requires Valid()
      modifies this
      ensures Valid()
      ensures contestants == old(contestants)
      ensures var lookup := LookupSubscriptions(old(pushSubscriptions), store, contestantId);
        && pushSubscriptions == lookup.cache
        && (lookup.result.Err? ==> err == Some(GetPushSubscriptionsFailed(lookup.result.error)) && attempted == [])
        && (lookup.result.Ok? ==>
              var subs := lookup.result.value;
              var i := FirstFailure(push, n, subs);
              if i < |subs| then
                err == Some(SendWebPushFailed(SendWebPush(push, n, subs[i]).value)) && attempted == subs[..i + 1]
              else
                err == None && attempted == subs)
    {
      attempted := [];
      var looked := GetPushSubscriptions(store, contestantId);
      if looked.Err? {
        return Some(GetPushSubscriptionsFailed(looked.error)), attempted;
      }
      var subs := looked.value;
      for i := 0 to |subs|
        invariant attempted == subs[..i]
        invariant i <= FirstFailure(push, n, subs)
      {
        attempted := attempted + [subs[i]];
        var sent := SendWebPush(push, n, subs[i]);
        if sent.Some? {
          return Some(SendWebPushFailed(sent.value)), attempted;
        }
      }
      err := None;
    }
  }

  /** The notifier: the VAPID options it derives once and keeps. */
  class Notifier {
    var options: Option<VapidOptions>

    constructor ()
      ensures options == None
    {
      options := None;
    }

    /** `Reset`: replace both package caches with empty ones. */
    method Reset(caches: Caches)
      modifies caches
      ensures caches.Valid()
      ensures caches.contestants == map[] && caches.pushSubscriptions == map[]
    {
      caches.contestants := map[];
      caches.pushSubscriptions := map[];
    }

    /**
     * `VAPIDKey`: the memoised options, derived from the key file on the first
     * call that succeeds. A failure returns None and leaves nothing memoised.
     */
    method VAPIDKey(keyFile: KeyFile, parse: EcKeyParser) returns (r: Option<VapidOptions>)
      modifies this
      ensures r == options
      ensures old(options).Some? ==> options == old(options)
      ensures old(options).None? ==> options == LoadOptions(keyFile, parse)
    {
      if options.None? {
        if keyFile.Unreadable? {
          return None;
        }
        var (block, _) := PemDecode(keyFile.blocks);
        if block.None? {
          return None;
        }
        var priKey := parse(block.value.bytes);
        if priKey.None? {
          return None;
        }
        options := Some(VapidOptions(WebpushSubject, priKey.value));
      }
      return options;
    }

    /**
     * `NotifyClarificationAnswered`: resolve the clarification's audience, then
     * build one notification per recipient and dispatch it when push options
     * are available.
     */
    method NotifyClarificationAnswered(caches: Caches, store: Store, keyFile: KeyFile, parse: EcKeyParser,
                                       c: Clarification, updated: bool)
      returns (err: Option<QueryError>, dispatched: seq<Dispatch>)
      requires caches.Valid()
      modifies this, caches
      ensures caches.Valid()
      ensures caches.pushSubscriptions == old(caches.pushSubscriptions)
      ensures var res := Resolve(old(caches.contestants), store, ClarificationScope(c));
        && caches.contestants == res.cache
        && (res.audience.Err? ==> err == Some(res.audience.error) && dispatched == [] && options == old(options))
        && (res.audience.Ok? ==>
              && err == None
              && options == (if res.audience.value == [] then old(options) else MemoisedOptions(old(options), keyFile, parse))
              && dispatched == (if MemoisedOptions(old(options), keyFile, parse).Some?
                                then ClarificationFanout(c, updated, res.audience.value) else []))
    {
      dispatched := [];
      var contestants := caches.LoadContestants(store, ClarificationScope(c));
      if contestants.Err? {
        return Some(contestants.error), dispatched;
      }
      var audience := contestants.value;
      ghost var before := options;
      for i := 0 to |audience|
        modifies this
        invariant options == if i == 0 then before else MemoisedOptions(before, keyFile, parse)
        invariant dispatched == if MemoisedOptions(before, keyFile, parse).Some?
                                then ClarificationFanout(c, updated, audience[..i]) else []
      {
        var contestant := audience[i];
        var content := ClarificationMessage(c.id, c.teamId == contestant.teamId, updated);
        var key := VAPIDKey(keyFile, parse);
        if key.Some? {
          var notification := Notification(ClarificationNotificationId(c), content);
          dispatched := dispatched + [Dispatch(notification, contestant.id)];
        }
        assert audience[..i + 1][..i] == audience[..i];
      }
      assert audience[..|audience|] == audience;
      err := None;
    }

    /**
     * `NotifyBenchmarkJobFinished`: resolve the job's team audience, then
     * build one notification per recipient and dispatch it when push options
     * are available.
     */
    method NotifyBenchmarkJobFinished(caches: Caches, store: Store, keyFile: KeyFile, parse: EcKeyParser,
                                      job: BenchmarkJob)
      returns (err: Option<QueryError>, dispatched: seq<Dispatch>)
      requires caches.Valid()
      modifies this, caches
      ensures caches.Valid()
      ensures caches.pushSubscriptions == old(caches.pushSubscriptions)
      ensures var res := Resolve(old(caches.contestants), store, BenchmarkJobScope(job));
        && caches.contestants == res.cache
        && (res.audience.Err? ==> err == Some(res.audience.error) && dispatched == [] && options == old(options))
        && (res.audience.Ok? ==>
              && err == None
              && options == (if res.audience.value == [] then old(options) else MemoisedOptions(old(options), keyFile, parse))
              && dispatched == (if MemoisedOptions(old(options), keyFile, parse).Some?
                                then BenchmarkJobFanout(job, res.audience.value) else []))
    {
      dispatched := [];
      var contestants := caches.LoadContestants(store, BenchmarkJobScope(job));
      if contestants.Err? {
        return Some(contestants.error), dispatched;
      }
      var audience := contestants.value;
      ghost var before := options;
      for i := 0 to |audience|
        modifies this
        invariant options == if i == 0 then before else MemoisedOptions(before, keyFile, parse)
        invariant dispatched == if MemoisedOptions(before, keyFile, parse).Some?
                                then BenchmarkJobFanout(job, audience[..i]) else []
      {
        var contestant := audience[i];
        var content := BenchmarkJobMessage(job.id);
        var key := VAPIDKey(keyFile, parse);
        if key.Some? {
          var notification := Notification(job.id, content);
          dispatched := dispatched + [Dispatch(notification, contestant.id)];
        }
        assert audience[..i + 1][..i] == audience[..i];
      }
      assert audience[..|audience|] == audience;
      err := None;
    }
  }
}
