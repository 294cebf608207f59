# Notification fan-out of the xsuportal contest portal

This project models the core of `app/webapp/golang/notifier.go`, the part of the
xsuportal web application that announces events to contestants by Web Push:

- **Audience resolution.** A clarification that has been answered goes to every
  contestant on any team when it is disclosed (`Disclosed` is valid and true),
  and otherwise to the contestants of the team that asked. A finished benchmark
  job goes to the contestants of the job's team.
- **The audience cache** (`contestantsCache`). Audiences are memoised under a
  scope key: the sentinel `0` for the disclosed broadcast, the team id
  otherwise. A hit issues no query. A miss runs the SELECT and stores a
  successful result. A failed query is returned and nothing is stored.
- **Per-recipient messages.** A clarification message carries the
  clarification id, `updated`, and an `owned` flag computed for each recipient
  (`recipient team == clarification team`). Its notification id is
  `c.ID + 1000000`, an int64 addition. A benchmark-job message carries the job
  id, which is also its notification id. A message is dispatched only when
  `VAPIDKey()` yields options.
- **The subscription cache** (`pushSubscriptionCache`) and `webPush`. A
  contestant's subscriptions are memoised, and "no rows" counts as an empty
  success that is cached. `webPush` sends to each subscription in turn and stops
  at the first failure. `SendWebPush` maps status 410 to "expired", 404 to
  "invalid", and every other status to success.
- **Key discovery.** `GetVAPIDKey` scans the PEM blocks of the key file and
  returns the first that parses as an EC private key. `VAPIDKey` memoises the
  options it derives and tries again on a later call after a failure.

The model is split by concern. `types.dfy` holds the entities, Go's `int64`
and the store the SELECTs run against. `audience.dfy` holds the scope keys,
the audiences and the cache lookup as functions. `messages.dfy` holds the
per-recipient notifications. `vapid.dfy` holds the key-file scan and the
option derivation. `push.dfy` holds the subscription lookup and the status
classification. `xsuportal.dfy` holds the imperative part: a `Caches` class
whose two map fields are the package-level caches, and a `Notifier` class whose
`options` field is the memoised push configuration. Its methods are proved
against the functions of the other modules.

Notes on the code as written:

- The sentinel cannot collide with a team id. `contestantsCache.Load(0)` boxes
  the untyped constant as a Go `int`, while team lookups box an `int64`.
  `sync.Map` compares keys by dynamic type and value, so the disclosed entry and
  the entry of a team whose id is 0 are different keys. The model therefore
  uses `CacheKey = AllTeams | Team(id)`.
- `VAPIDKey` decodes only the first PEM block of the key file, while
  `GetVAPIDKey` scans them all. `Vapid.LoadAgreesWithScan` shows they agree
  when `VAPIDKey` succeeds. `Vapid.ScanFindsKeysLoadMisses` shows a two-block
  file that `GetVAPIDKey` accepts and `VAPIDKey` rejects.
- The code does not store a notification row for each recipient, and it reads
  none back. The model has no persistence step.
- A push answered with any status other than 404 or 410, a 5xx included, counts
  as delivered.
- `SendWebPush` signs with the key that `init` loaded into the package
  variable `priv`, not with the notifier's `options`. The options only decide
  whether a message is dispatched.

## Model

| member | source | states |
|---|---|---|
| `Audience.ClarificationScope` | app/webapp/golang/notifier.go:112-146 | the key is the sentinel exactly when `Disclosed` is valid and true; otherwise it is the clarification's team id |
| `Audience.AudienceOf` | app/webapp/golang/notifier.go:119-141 | the scanned rows are exactly the table rows the scope's WHERE clause selects; each fits the scope; there are never more of them than rows |
| `Audience.NoRecipientTwice` | app/webapp/golang/notifier.go:119-141 | when the table's contestant ids are distinct, so are the ids of every audience: each selected row appears once |
| `Audience.BenchmarkJobScope` | app/webapp/golang/notifier.go:178 | a benchmark job is looked up under its team's key |
| `Audience.DisclosedAudience` | app/webapp/golang/notifier.go:112-128 | a contestant is in the disclosed audience iff it has a non-null team, whichever team asked |
| `Audience.TeamAudience` | app/webapp/golang/notifier.go:129-146 | a contestant is in a team's audience iff its `team_id` equals that team |
| `Audience.TeamlessNeverNotified` | app/webapp/golang/notifier.go:122 | a contestant with a NULL team is in no audience |
| `Audience.UndisclosedSharesJobScope` | app/webapp/golang/notifier.go:178 | an undisclosed clarification and a benchmark job of the same team use the same cache key |
| `Audience.Resolve` | app/webapp/golang/notifier.go:113-146 | a lookup adds at most its own key and only on success; it never alters other entries; the audience returned is what is stored; it fails iff the key is missing and the SELECT does not return rows; the cache invariant is kept |
| `Audience.HitIgnoresStore` | app/webapp/golang/notifier.go:113-117 | on a hit the stored list is returned unchanged, whatever the store holds (no query) |
| `Audience.MissQueriesStore` | app/webapp/golang/notifier.go:118-128 | on a miss with a successful SELECT, the audience of the scope is returned and stored under its key |
| `Audience.RepeatIsHit` | app/webapp/golang/notifier.go:127 | after a successful lookup, repeating it against any later store returns the same result and cache |
| `Audience.JobAndClarificationShareEntry` | app/webapp/golang/notifier.go:178-194 | an entry stored by a benchmark job serves an undisclosed clarification of the same team, and the other way round |
| `Audience.FailureLeavesCache` | app/webapp/golang/notifier.go:124-126 | when the store fails, the cache is unchanged and the lookup errs iff the key was not cached |
| `Audience.EmptyCacheQueries` | app/webapp/golang/notifier.go:72-75 | after `Reset` every key is a miss: the lookup succeeds iff the SELECT returns rows, and returns the scope's audience |
| `Messages.ClarificationNotificationId` | app/webapp/golang/notifier.go:160 | the id is `c.ID + 1000000` when that fits in int64; otherwise it is that sum minus 2^64 (int64 wrap-around) |
| `Messages.ClarificationNotification` | app/webapp/golang/notifier.go:149-160 | the message carries the clarification id and `updated`; `owned` holds iff the recipient's team is the clarification's team |
| `Messages.ClarificationFanout` | app/webapp/golang/notifier.go:148-168 | exactly one dispatch per audience member, in order, addressed to that member and carrying that member's message |
| `Messages.BenchmarkJobFanout` | app/webapp/golang/notifier.go:196-214 | exactly one dispatch per audience member, in order, each carrying the job id as both message id and payload |
| `Messages.BenchmarkJobNotification` | app/webapp/golang/notifier.go:197-206 | the message id and the payload's job id are both the job id |
| `Messages.ClarificationOncePerRecipient` | app/webapp/golang/notifier.go:148-168 | over an audience with distinct ids, no contestant is sent two clarification messages |
| `Messages.BenchmarkJobOncePerRecipient` | app/webapp/golang/notifier.go:196-214 | over an audience with distinct ids, no contestant is sent two job messages |
| `Messages.BroadcastOwnership` | app/webapp/golang/notifier.go:148-157 | a disclosed broadcast reaches every contestant with a team, with `owned` set iff that contestant is on the asking team |
| `Messages.TeamScopedAllOwned` | app/webapp/golang/notifier.go:153 | when every recipient is on the clarification's team, every message has `owned` set |
| `Messages.UndisclosedAllOwned` | app/webapp/golang/notifier.go:129-157 | for an undisclosed clarification, served from the store or from a cache that keeps its invariant, every recipient owns it |
| `Vapid.PemDecode` | app/webapp/golang/notifier.go:224-228 | decoding yields no block iff the data is exhausted; otherwise it yields the next block and the data after it |
| `Vapid.FirstEcKey` | app/webapp/golang/notifier.go:223-234 | a key the scan yields is the key some block parses to |
| `Vapid.FindVapidKey` | app/webapp/golang/notifier.go:218-236 | a read error iff the file is unreadable; "not found" iff it is readable and no block parses; otherwise the scan's key |
| `Vapid.FirstEcKeyIsFirst` | app/webapp/golang/notifier.go:223-234 | the scan yields key k iff some block parses to k and no earlier block parses |
| `Vapid.FirstEcKeyNone` | app/webapp/golang/notifier.go:223-235 | the scan yields nothing iff no block parses |
| `Vapid.GetVAPIDKey` | app/webapp/golang/notifier.go:218-236 | the loop returns the first parsing block's key, a read error iff the file is unreadable, and "not found" when the blocks run out |
| `Vapid.LoadOptions` | app/webapp/golang/notifier.go:80-103 | options are derived iff the file is readable, has a first block, and that block parses; they carry the subject and that block's key |
| `Vapid.MemoisedOptions` | app/webapp/golang/notifier.go:80-104 | set options are kept; otherwise the result is the first-block load |
| `Vapid.MemoisedOptionsIdempotent` | app/webapp/golang/notifier.go:80-104 | a second `VAPIDKey` call on the same file returns what the first returned |
| `Vapid.MemoisedIgnoresFile` | app/webapp/golang/notifier.go:80 | once options are set, later calls return them whatever the key file holds |
| `Vapid.LoadAgreesWithScan` | app/webapp/golang/notifier.go:85-92 | when `VAPIDKey` derives options, `GetVAPIDKey` finds the same key in the same file |
| `Vapid.ScanFindsKeysLoadMisses` | app/webapp/golang/notifier.go:85-92 | a file whose first block does not parse and whose second does is accepted by `GetVAPIDKey` and rejected by `VAPIDKey` |
| `Push.SendWebPush` | app/webapp/golang/notifier.go:268-308 | 410 iff expired, 404 iff invalid, marshal and transport failures reported as such, success iff a response with any other status |
| `Push.FirstFailure` | app/webapp/golang/notifier.go:46-50 | every subscription before the returned position sends successfully, and the one at it fails |
| `Push.SubscriptionsOf` | app/webapp/golang/notifier.go:254-259 | the selected rows are exactly the subscriptions whose `contestant_id` is the contestant |
| `Push.NoSubscriptionTwice` | app/webapp/golang/notifier.go:254-259 | when subscription ids in the table are distinct, the selected list repeats none, so no subscription is pushed to twice |
| `Push.LookupSubscriptions` | app/webapp/golang/notifier.go:249-266 | fails iff the key is missing and the store fails; a miss returns the contestant's subscriptions; the result is stored; other entries and the cache invariant are kept |
| `Push.NoRowsCachedAsEmpty` | app/webapp/golang/notifier.go:260-263 | a "no rows" answer is an empty success, cached, and served by the next lookup |
| `Push.SubscriptionHitIgnoresStore` | app/webapp/golang/notifier.go:251-252 | a cached list is returned without a query, whatever the store holds |
| `Xsuportal.Caches.constructor` | app/webapp/golang/notifier.go:67-68 | both caches start empty |
| `Xsuportal.Caches.LoadContestants` | app/webapp/golang/notifier.go:113-146 | the lookup returns and stores what `Resolve` specifies, leaves the subscription cache alone, and keeps the invariant |
| `Xsuportal.Caches.GetPushSubscriptions` | app/webapp/golang/notifier.go:249-266 | the lookup returns and stores what `LookupSubscriptions` specifies and leaves the audience cache alone |
| `Xsuportal.Caches.WebPush` | app/webapp/golang/notifier.go:40-53 | a failed lookup sends nothing; otherwise sends go out in order up to and including the first failure, whose error is returned, or to every subscription with no error |
| `Xsuportal.Notifier.Reset` | app/webapp/golang/notifier.go:72-75 | both caches are empty afterwards |
| `Xsuportal.Notifier.VAPIDKey` | app/webapp/golang/notifier.go:77-105 | memoised options are returned unchanged; otherwise the derived options, or nil, are returned and stored |
| `Xsuportal.Notifier.NotifyClarificationAnswered` | app/webapp/golang/notifier.go:107-170 | a failed audience lookup returns its error and dispatches nothing; otherwise it returns nil and dispatches the per-recipient fan-out when options are available, and nothing when they are not |
| `Xsuportal.Notifier.NotifyBenchmarkJobFinished` | app/webapp/golang/notifier.go:172-216 | same, through the team-keyed entry of the job's team, with the job's message |

## Left out

- Goroutines, `sync.Map` and the notifier's mutex. The notify methods return the list of (notification, contestant id) pairs they would hand to `go func`. `Caches.WebPush` is what one such goroutine runs. The caches are plain maps.
- The goroutines in `NotifyClarificationAnswered` and `NotifyBenchmarkJobFinished` capture the loop variable `contestant`. Under Go releases before 1.22 a goroutine that runs after the next iteration sees a later contestant's id. The model gives each dispatch its own iteration's contestant.
- `Reset` overwrites the two `sync.Map` variables in place with zero values. A `Load` or `Store` already in flight works on those same variables, so the overwrite races with it. The model empties the maps between calls and does not capture that race.
- `sqlx.Select` and `ioutil.ReadFile`. A `Store` value stands for the tables during one call. It either fails every SELECT or answers it, optionally reporting an empty answer as `sql.ErrNoRows`. A `KeyFile` value stands for the key file. Rows come back in table order, where SQL leaves the order unspecified.
- The key file is one value for the whole of a notify call, so every `VAPIDKey` call in the loop sees the same file.
- PEM text framing, `x509.ParseECPrivateKey`, `elliptic.Marshal`, base64 (sections 4 and 5 of RFC 4648) and `proto.Marshal`. A key file is the sequence of blocks `pem.Decode` yields, and parsing is a given function.
- Message delivery (section 5 of RFC 8030) and VAPID signing (section 3 of RFC 8292) inside webpush-go. The push service is a given function that reports a marshal failure, a transport failure or an HTTP status.
- Vapid.LoadOptions: the options hold the subject and the key, not the base64url strings of the private scalar and public point, because those encodings are left out.
- The text of the wrapped errors (`fmt.Errorf`). Each error is a datatype constructor naming its cause.
- The log line printed when a dispatched `webPush` fails.
- `init`, which panics when no key is found, and `MakeTestNotificationPB`, which uses `rand` and `time.Now`.
- The `CreatedAt` timestamps.
- The shared `http.Client` configuration.
- `app/webapp/golang/embed/debug.go` is not part of this model: it is HTTP debug wiring.
