/**
 * Audience resolution for a notification: which contestants a clarification
 * or a benchmark job is announced to, and how the answer is memoised in
 * `contestantsCache` under a scope key.
 */
module Audience {
  import opened Wrappers
  import opened Types

  /**
   * A key of `contestantsCache`. A disclosed clarification is stored under the
   * untyped constant 0, which Go boxes as an `int`; every other lookup uses an
   * `int64` team id. `sync.Map` compares keys by dynamic type and value, so the
   * sentinel and the entry of a team whose id is 0 are different keys.
   */
  datatype CacheKey = AllTeams | Team(teamId: int64)

  /** The error a failed contestants SELECT is reported as, naming its scope. */
  datatype QueryError = SelectContestantsFailed(scope: CacheKey)

  /** `c.Disclosed.Valid && c.Disclosed.Bool`: SQL NULL counts as not disclosed. */
  predicate IsDisclosed(c: Clarification) {
    c.disclosed.valid && c.disclosed.b
  }

  /** The cache key a clarification's audience is looked up under. */
  function ClarificationScope(c: Clarification): (k: CacheKey)
    ensures k == AllTeams <==> IsDisclosed(c)
    ensures k.Team? ==> k.teamId == c.teamId
  {
    if IsDisclosed(c) then AllTeams else Team(c.teamId)
  }

  /** The cache key a benchmark job's audience is looked up under. */
  function BenchmarkJobScope(job: BenchmarkJob): (k: CacheKey)
    ensures k.Team? && k.teamId == job.teamId
  {
    Team(job.teamId)
  }

  /** The WHERE clause of the scope's SELECT: `team_id IS NOT NULL` or `team_id = ?`. */
  predicate Selects(k: CacheKey, row: ContestantRow) {
    match k
    case AllTeams => row.teamId.Some?
    case Team(t) => row.teamId == Some(t)
  }

  /** The `(id, team_id)` struct a selected row is scanned into. */
  function Scan(row: ContestantRow): Contestant
    requires row.teamId.Some?
  {
    Contestant(row.id, row.teamId.value)
  }

  /** Whether a contestant may stand in the audience of scope `k`. */
  predicate Fits(k: CacheKey, x: Contestant) {
    k.AllTeams? || x.teamId == k.teamId
  }

  /** Every cached audience holds only contestants that fit its key. */
  predicate CacheFits(cache: map<CacheKey, seq<Contestant>>) {
    forall k :: k in cache ==> forall x :: x in cache[k] ==> Fits(k, x)
  }

  /** The rows the scope's SELECT returns, scanned, in table order. */
  function AudienceOf(rows: seq<ContestantRow>, k: CacheKey): (r: seq<Contestant>)
    ensures |r| <= |rows|
    ensures forall x :: x in r ==> Fits(k, x)
    ensures forall row :: row in rows && Selects(k, row) ==> Scan(row) in r
    ensures forall x :: x in r ==> exists row :: row in rows && Selects(k, row) && x == Scan(row)
  {
    if rows == [] then []
    else
      var rest := AudienceOf(rows[1..], k);
      assert forall row :: row in rows ==> row == rows[0] || row in rows[1..];
      if Selects(k, rows[0]) then [Scan(rows[0])] + rest else rest
  }

  /** No two rows share a contestant id, as the table's primary key guarantees. */
  predicate DistinctRowIds(rows: seq<ContestantRow>) {
    forall i, j :: 0 <= i < j < |rows| ==> rows[i].id != rows[j].id
  }

  /** No two contestants of an audience share an id. */
  predicate DistinctIds(audience: seq<Contestant>) {
    forall i, j :: 0 <= i < j < |audience| ==> audience[i].id != audience[j].id
  }

  /** Each selected row is scanned once: an audience drawn from a table keyed by id names no contestant twice. */
  lemma {:induction false} NoRecipientTwice(rows: seq<ContestantRow>, k: CacheKey)
    requires DistinctRowIds(rows)
    ensures DistinctIds(AudienceOf(rows, k))
    decreases |rows|
  {
    if rows != [] {
      NoRecipientTwice(rows[1..], k);
      var rest := AudienceOf(rows[1..], k);
      forall x | x in rest
        ensures x.id != rows[0].id
      {
        var row :| row in rows[1..] && Selects(k, row) && x == Scan(row);
        var j :| 0 <= j < |rows[1..]| && rows[1..][j] == row;
        assert rows[j + 1] == row;
      }
      if Selects(k, rows[0]) {
        var r := [Scan(rows[0])] + rest;
        forall i, j | 0 <= i < j < |r|
          ensures r[i].id != r[j].id
        {
          if i == 0 {
            assert r[j] == rest[j - 1] && rest[j - 1] in rest;
          } else {
            assert r[i] == rest[i - 1] && r[j] == rest[j - 1];
          }
        }
      }
    }
  }

  /** A disclosed clarification reaches every contestant that has a team, whichever team asked. */
  lemma DisclosedAudience(rows: seq<ContestantRow>, x: Contestant)
    ensures x in AudienceOf(rows, AllTeams) <==> ContestantRow(x.id, Some(x.teamId)) in rows
  {
    if ContestantRow(x.id, Some(x.teamId)) in rows {
      assert Scan(ContestantRow(x.id, Some(x.teamId))) == x;
    }
  }

  /** A team-scoped audience is exactly the contestants whose `team_id` is that team. */
  lemma TeamAudience(rows: seq<ContestantRow>, t: int64, x: Contestant)
    ensures x in AudienceOf(rows, Team(t)) <==> x.teamId == t && ContestantRow(x.id, Some(t)) in rows
  {
    if x.teamId == t && ContestantRow(x.id, Some(t)) in rows {
      assert Scan(ContestantRow(x.id, Some(t))) == x;
    }
  }

  /** A contestant without a team is in no audience. */
  lemma TeamlessNeverNotified(rows: seq<ContestantRow>, k: CacheKey, id: string)
    requires ContestantRow(id, None) in rows
    requires forall row :: row in rows && row.id == id ==> row.teamId.None?
    ensures forall x :: x in AudienceOf(rows, k) ==> x.id != id
  {
  }

  /** The scope key of a clarification that is not disclosed is the one its team's benchmark jobs use. */
  lemma UndisclosedSharesJobScope(c: Clarification, job: BenchmarkJob)
    requires !IsDisclosed(c) && c.teamId == job.teamId
    ensures ClarificationScope(c) == BenchmarkJobScope(job)
  {
  }

  /** The audience a lookup yields, and the cache as it stands afterwards. */
  datatype Resolution = Resolution(audience: Result<seq<Contestant>, QueryError>, cache: map<CacheKey, seq<Contestant>>)

  /**
   * Load `k` from the cache; on a miss run the scope's SELECT and store what it
   * returns. Any error, `sql.ErrNoRows` included, is returned and nothing is stored.
   */
  function Resolve(cache: map<CacheKey, seq<Contestant>>, store: Store, k: CacheKey): (r: Resolution)
    ensures r.cache.Keys == if r.audience.Ok? then cache.Keys + {k} else cache.Keys
    ensures forall k' :: k' in cache ==> r.cache[k'] == cache[k']
    ensures r.audience.Ok? ==> r.cache[k] == r.audience.value
    ensures r.audience.Err? <==> k !in cache && !Select(store, AudienceOf(store.contestants, k)).Rows?
    ensures r.audience.Err? ==> r.audience.error == SelectContestantsFailed(k)
    ensures CacheFits(cache) ==> CacheFits(r.cache)
  {
    if k in cache then Resolution(Ok(cache[k]), cache)
    else match Select(store, AudienceOf(store.contestants, k))
      case Rows(rows) => Resolution(Ok(rows), cache[k := rows])
      case _ => Resolution(Err(SelectContestantsFailed(k)), cache)
  }

  /** A hit issues no query: the stored list is returned whatever the store holds, and the cache is unchanged. */
  lemma HitIgnoresStore(cache: map<CacheKey, seq<Contestant>>, store: Store, k: CacheKey)
    requires k in cache
    ensures Resolve(cache, store, k) == Resolution(Ok(cache[k]), cache)
  {
  }

  /** A miss answers from the store: the audience of the scope, stored under its key. */
  lemma MissQueriesStore(cache: map<CacheKey, seq<Contestant>>, store: Store, k: CacheKey)
    requires k !in cache
    requires store.reachable && !(store.emptyIsNoRows && AudienceOf(store.contestants, k) == [])
    ensures Resolve(cache, store, k) ==
      Resolution(Ok(AudienceOf(store.contestants, k)), cache[k := AudienceOf(store.contestants, k)])
  {
  }

  /** After a successful lookup the same key is a hit, against any later store. */
  lemma RepeatIsHit(cache: map<CacheKey, seq<Contestant>>, store: Store, later: Store, k: CacheKey)
    requires Resolve(cache, store, k).audience.Ok?
    ensures Resolve(Resolve(cache, store, k).cache, later, k) == Resolve(cache, store, k)
  {
  }

  /** An entry stored for a benchmark job serves an undisclosed clarification of the same team, and vice versa. */
  lemma JobAndClarificationShareEntry(cache: map<CacheKey, seq<Contestant>>, store: Store, later: Store,
                                      c: Clarification, job: BenchmarkJob)
    requires !IsDisclosed(c) && c.teamId == job.teamId
    ensures Resolve(cache, store, BenchmarkJobScope(job)).audience.Ok? ==>
      Resolve(Resolve(cache, store, BenchmarkJobScope(job)).cache, later, ClarificationScope(c)).audience
        == Resolve(cache, store, BenchmarkJobScope(job)).audience
    ensures Resolve(cache, store, ClarificationScope(c)).audience.Ok? ==>
      Resolve(Resolve(cache, store, ClarificationScope(c)).cache, later, BenchmarkJobScope(job)).audience
        == Resolve(cache, store, ClarificationScope(c)).audience
  {
  }

  /** A failed lookup leaves the cache as it was. */
  lemma FailureLeavesCache(cache: map<CacheKey, seq<Contestant>>, store: Store, k: CacheKey)
    requires !store.reachable
    ensures Resolve(cache, store, k).audience.Err? <==> k !in cache
    ensures Resolve(cache, store, k).cache == cache
  {
  }

  /** On an emptied cache every key is a miss: the audience comes from the store. */
  lemma EmptyCacheQueries(store: Store, k: CacheKey)
    ensures Resolve(map[], store, k).audience.Ok? <==> Select(store, AudienceOf(store.contestants, k)).Rows?
    ensures Resolve(map[], store, k).audience.Ok? ==>
      Resolve(map[], store, k).audience.value == AudienceOf(store.contestants, k)
  {
  }
}
