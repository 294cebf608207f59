/**
 * The notification built for each recipient of an event, and the list of
 * (notification, contestant id) pairs handed to push delivery.
 */
module Messages {
  import opened Wrappers
  import opened Types
  import opened Audience

  /** Added to a clarification id to form its notification id. */
  const ClarificationIdOffset: int := 1000000

  /** `c.ID + 1000000`, an int64 addition that wraps on overflow. */
  function ClarificationNotificationId(c: Clarification): (id: int64)
    ensures c.id as int <= MaxInt64 - ClarificationIdOffset ==> id as int == c.id as int + ClarificationIdOffset
    ensures c.id as int > MaxInt64 - ClarificationIdOffset ==>
      id as int == c.id as int + ClarificationIdOffset - 0x1_0000_0000_0000_0000
  {
    Wrap64(c.id as int + ClarificationIdOffset)
  }

  /** The notification one recipient of an answered clarification is sent. */
  function ClarificationNotification(c: Clarification, updated: bool, x: Contestant): (n: Notification)
    ensures n.id == ClarificationNotificationId(c)
    ensures n.content.ClarificationMessage?
    ensures n.content.clarificationId == c.id && n.content.updated == updated
    ensures n.content.owned <==> x.teamId == c.teamId
  {
    Notification(ClarificationNotificationId(c), ClarificationMessage(c.id, c.teamId == x.teamId, updated))
  }

  /** The notification every recipient of a finished benchmark job is sent; its id is the job id. */
  function BenchmarkJobNotification(job: BenchmarkJob): (n: Notification)
    ensures n.id == job.id
    ensures n.content == BenchmarkJobMessage(job.id)
  {
    Notification(job.id, BenchmarkJobMessage(job.id))
  }

  /** One push delivery: a notification and the contestant it goes to. */
  datatype Dispatch = Dispatch(notification: Notification, contestantId: string)

  /** One dispatch per audience member, in audience order, each with its own `owned` flag. */
  function ClarificationFanout(c: Clarification, updated: bool, audience: seq<Contestant>): (r: seq<Dispatch>)
    ensures |r| == |audience|
    ensures forall i :: 0 <= i < |audience| ==>
      r[i] == Dispatch(ClarificationNotification(c, updated, audience[i]), audience[i].id)
    decreases |audience|
  {
    if audience == [] then []
    else
      var last := audience[|audience| - 1];
      ClarificationFanout(c, updated, audience[..|audience| - 1])
        + [Dispatch(ClarificationNotification(c, updated, last), last.id)]
  }

  /** One dispatch per audience member, in audience order, all carrying the job's notification. */
  function BenchmarkJobFanout(job: BenchmarkJob, audience: seq<Contestant>): (r: seq<Dispatch>)
    ensures |r| == |audience|
    ensures forall i :: 0 <= i < |audience| ==>
      r[i] == Dispatch(BenchmarkJobNotification(job), audience[i].id)
    decreases |audience|
  {
    if audience == [] then []
    else
      var last := audience[|audience| - 1];
      BenchmarkJobFanout(job, audience[..|audience| - 1]) + [Dispatch(BenchmarkJobNotification(job), last.id)]
  }

  /** Fanning out over an audience without repeated ids sends each contestant exactly one clarification message. */
  lemma ClarificationOncePerRecipient(c: Clarification, updated: bool, audience: seq<Contestant>)
    requires DistinctIds(audience)
    ensures var r := ClarificationFanout(c, updated, audience);
      forall i, j :: 0 <= i < j < |r| ==> r[i].contestantId != r[j].contestantId
  {
  }

  /** Fanning out over an audience without repeated ids sends each contestant exactly one job message. */
  lemma BenchmarkJobOncePerRecipient(job: BenchmarkJob, audience: seq<Contestant>)
    requires DistinctIds(audience)
    ensures var r := BenchmarkJobFanout(job, audience);
      forall i, j :: 0 <= i < j < |r| ==> r[i].contestantId != r[j].contestantId
  {
  }

  /**
   * A disclosed broadcast reaches every contestant that has a team, and marks
   * `owned` for that recipient exactly when the recipient is on the asking team.
   */
  lemma {:induction false} BroadcastOwnership(c: Clarification, updated: bool, rows: seq<ContestantRow>, row: ContestantRow)
    requires IsDisclosed(c)
    requires row in rows && row.teamId.Some?
    ensures exists d :: (d in ClarificationFanout(c, updated, AudienceOf(rows, ClarificationScope(c)))
                         && d.contestantId == row.id
                         && (d.notification.content.owned <==> row.teamId.value == c.teamId))
  {
    var aud := AudienceOf(rows, AllTeams);
    var i :| 0 <= i < |aud| && aud[i] == Scan(row);
    var d := ClarificationFanout(c, updated, aud)[i];
    assert d in ClarificationFanout(c, updated, aud);
  }

  /** When every recipient fits the clarification's team scope, every recipient owns the clarification. */
  lemma {:induction false} TeamScopedAllOwned(c: Clarification, updated: bool, audience: seq<Contestant>)
    requires forall x :: x in audience ==> Fits(Team(c.teamId), x)
    ensures forall d :: d in ClarificationFanout(c, updated, audience) ==> d.notification.content.owned
  {
    forall d | d in ClarificationFanout(c, updated, audience)
      ensures d.notification.content.owned
    {
      var i :| 0 <= i < |audience| && ClarificationFanout(c, updated, audience)[i] == d;
      assert audience[i] in audience;
    }
  }

  /**
   * An undisclosed clarification is announced only to its own team, whether
   * the audience comes from the store or from a cache whose entries fit their
   * keys: every recipient owns it.
   */
  lemma UndisclosedAllOwned(cache: map<CacheKey, seq<Contestant>>, store: Store, c: Clarification, updated: bool)
    requires CacheFits(cache) && !IsDisclosed(c)
    requires Resolve(cache, store, ClarificationScope(c)).audience.Ok?
    ensures var audience := Resolve(cache, store, ClarificationScope(c)).audience.value;
      forall d :: d in ClarificationFanout(c, updated, audience) ==> d.notification.content.owned
  {
    var res := Resolve(cache, store, ClarificationScope(c));
    assert res.cache[Team(c.teamId)] == res.audience.value;
    TeamScopedAllOwned(c, updated, res.audience.value);
  }
}
