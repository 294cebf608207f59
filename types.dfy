/**
 * The entities the notifier reads: contestants, clarifications, benchmark jobs,
 * push subscriptions, the protobuf notification it builds, and the relational
 * store its SELECT statements run against.
 */
module Types {
  import opened Wrappers

  const MinInt64: int := -0x8000_0000_0000_0000
  const MaxInt64: int := 0x7fff_ffff_ffff_ffff

  /** Go's `int64`. */
  newtype int64 = x: int | MinInt64 <= x <= MaxInt64

  /** Go's two's-complement wrap-around of an int64 result. */
  function Wrap64(x: int): (r: int64)
    ensures MinInt64 <= x <= MaxInt64 ==> r as int == x
    ensures (r as int - x) % 0x1_0000_0000_0000_0000 == 0
  {
    ((x - MinInt64) % 0x1_0000_0000_0000_0000 + MinInt64) as int64
  }

  /** `sql.NullBool`: `Valid` is false for SQL NULL. */
  datatype NullBool = NullBool(valid: bool, b: bool)

  /** The fields of a clarification the notifier looks at. */
  datatype Clarification = Clarification(id: int64, teamId: int64, disclosed: NullBool)

  /** The fields of a benchmark job the notifier looks at. */
  datatype BenchmarkJob = BenchmarkJob(id: int64, teamId: int64)

  /** A row of the `contestants` table; `team_id` is nullable. */
  datatype ContestantRow = ContestantRow(id: string, teamId: Option<int64>)

  /** The `(id, team_id)` struct a contestants SELECT scans into; only rows with a team reach it. */
  datatype Contestant = Contestant(id: string, teamId: int64)

  /** A row of the `push_subscriptions` table. */
  datatype PushSubscription = PushSubscription(id: int64, contestantId: string, endpoint: string, p256dh: string, auth: string)

  /** The payload kinds of `resources.Notification`. */
  datatype Content =
    | ClarificationMessage(clarificationId: int64, owned: bool, updated: bool)
    | BenchmarkJobMessage(benchmarkJobId: int64)

  /** `resources.Notification` as dispatched; its `CreatedAt` timestamp is not modelled. */
  datatype Notification = Notification(id: int64, content: Content)

  /**
   * The relational store at the time of one call. `reachable` is false when
   * every SELECT fails; `emptyIsNoRows` is true when the driver reports an
   * empty result as `sql.ErrNoRows` instead of an empty slice.
   */
  datatype Store = Store(
    contestants: seq<ContestantRow>,
    pushSubscriptions: seq<PushSubscription>,
    reachable: bool,
    emptyIsNoRows: bool)

  /** What `sqlx.Select` reports: the scanned rows, `sql.ErrNoRows`, or another error. */
  datatype QueryResult<T> = Rows(rows: seq<T>) | NoRows | QueryFailed

  /** The outcome of a SELECT on `store` whose matching rows, in table order, are `matching`. */
  function Select<T>(store: Store, matching: seq<T>): (r: QueryResult<T>)
    ensures r.Rows? <==> store.reachable && (matching != [] || !store.emptyIsNoRows)
    ensures r.Rows? ==> r.rows == matching
    ensures r.NoRows? <==> store.reachable && store.emptyIsNoRows && matching == []
  {
    if !store.reachable then QueryFailed
    else if matching == [] && store.emptyIsNoRows then NoRows
    else Rows(matching)
  }
}
