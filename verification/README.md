# DanteGPU: protocol models

A Dafny model of the stateful protocols of the DanteGPU services, with proofs of what they keep
over whole runs. One file holds one component:

- `Redis.dfy` is a Redis server with per-key deadlines, lazy eviction, counters and sets. `Commands.dfy` treats
  its commands as the single steps of concurrent callers and says, for any log of commands, what is listed and
  what is alive. `RateLimiter.dfy`, `CacheService.dfy`, `SessionStore.dfy` and `Tokens.dfy` put the Go methods on
  top as classes that issue the same commands, and prove quantitative bounds and index-versus-entry agreement over
  timed runs in which the calls overlap.
- `Lockout.dfy` and `Rotation.dfy` model login lockout and refresh-token rotation. A refresh is split into its
  real steps (check, generate, update), and these interleave with other refreshes, logout and revocation.
- `Delivery.dfy` and `Tasks.dfy` model the provider daemon: JetStream delivery with AckWait, redelivery and any
  number of fetch loops, acceptance gated on GPU health, one run per accepted job, the status reports and the end
  of billing.
- `RentalLedger.dfy` and `EscrowLedger.dfy` model the two rental ledgers over their database tables.
- `Hub.dfy`, `DevicePlugin.dfy`, `RoundRobin.dfy` and `ApiKeys.dfy` model the websocket hub, the Kubernetes
  device plugin, the round-robin balancer and the API keys.

Each component has two layers. Pure functions say what an operation or a single command does to a state, and state
machines (`Step`, `Run`) iterate them over arbitrary event lists; the lemmas are about those runs. Classes hold the
fields of the Go types and their methods follow the Go bodies; each method's contract equates its result or new
state with the pure function, so the lemmas apply to it; for calls that take several steps of a machine, lemmas named
`...IsSteps` say which. Lemmas named `...Effect` say in
literal terms what one call or step answers and does. `dafny verify dfyconfig.toml` checks everything.

## Assumptions

- Time is an integer clock that never goes back. A single Redis command, a single SQL statement and a SQL
  transaction are one step each; the INCR and EXPIRE of a pipeline happen at one instant. Any time may pass, and
  any other call may act, between the Redis commands of one call.
- A session's ttl is computed at the instant of its SET. Update, UpdateActivity and ExtendExpiration reach the
  interleaving machine of `SessionIndex` as the writes they end in: a write there may store any session of the
  same owner at any time, whatever was read before.
- Random values (token ids, session ids) are fresh; a bcrypt hash matches the key it was made from and no other;
  a signature is valid exactly under the secret that made it.
- Lockout: the logins of one address do not overlap, each arrives strictly after the previous one recorded, and
  all the clock readings of one record are the same. `Attempts.UncheckedRecord` says what is lost otherwise.
- Delivery: an acknowledgement counts for the message whichever delivery it belongs to, and a delayed Nak sets the
  next delivery time whichever delivery it belongs to. AckWait is a parameter.
- Exclusivity in both ledgers is claimed for creates that run one at a time
  (`RentalLedger.OverlappingCreatesDoubleBook` shows why). Money and hours are exact reals, and `rental-service`
  balances may become negative.
- The hub's operations are serialised, and client ids are distinct and registered once.
- Job ids are distinct: the run machine does not offer an accepted job again.

## Where the code does not do what one would expect

Each of these is a lemma, together with the exact condition under which the expected property holds.

- The fixed-window limiter grants up to 2·limit − 1 requests within one window length (`FixedWindow.GrantBound`,
  `FixedWindow.BoundIsAttained`); it keeps to the limit only for trivial limits or windows
  (`FixedWindow.LimitIsKept`).
- An available GPU is missing from the index when an older setter's SREM overtakes the newer one's SADD, or when the
  index expires between SADD and EXPIRE (`AvailabilityIndex.SettledIsListed`, with `AvailabilityIndex.OverlapUnlists`
  and `AvailabilityIndex.SecondGpuIsLost`). Conversely being listed says nothing about being alive
  (`AvailabilityIndex.ListedAndAlive`, `AvailabilityIndex.SilentGpuStaysListed`).
- A live session disappears from its user's list when a shorter one is written after it, when the list expires
  between SADD and EXPIRE, or when a delete overtakes an update (`SessionIndex.StaysListed`,
  `SessionIndex.WriteKeepsIndex`, and one run for each).
- Caller ids or endpoints with colons share rate-limit quotas (`CacheKeys.QuotaIsShared`).
- A success recorded by an overlapping login hides a lock (`Attempts.UncheckedRecord`, `Attempts.OverlapUnlocks`).
- A refresh answers with a new token even when its UPDATE matched no row, and that token is worthless
  (`Rotation.AnswerIsGood`, `Rotation.UnmatchedAnswerIsWorthless`, `Rotation.WorthlessAnswerHappens`).
- Nothing in the repository consults the token blacklist: `RevokeToken` and `IsTokenRevoked` of the JWT manager are
  placeholders, and a listed token is accepted until it expires (`RevokedTokens.ListingChangesNoVerdict`).
- The comments in `clients/provider-daemon/internal/tasks/handler.go` promise that any terminal outcome ends the
  billing session; a failed workspace does not (`TaskRuns.AbortedLeavesSessionOpen`, `TaskRuns.NoWorkspaceAborts`).
  Without a reporter the active jobs never shrink (`TaskRuns.ActiveJobs`).
- A delivery that outlasts AckWait, or whose Ack is lost, is started again (`Delivery.StartedAgain`,
  `Delivery.LateAckStartsTwice`, `Delivery.LostAckStartsTwice`); a failed Nak falls back to an Ack and thereby drops
  a rejected message (`Delivery.FailedNakLosesTask`).
- `startRental` answers "started" for every rental id (`RentalLedger.StartedMeansLittle`), and overlapping creates
  book a GPU twice (`RentalLedger.CommitKeepsExclusive`, `RentalLedger.OverlappingCreatesDoubleBook`).
- All wallets get the same address and the address column is unique, so only the first wallet can ever be created
  (`EscrowLedger.OneWalletOnly`); a negative escrow frees funds (`EscrowLedger.NegativeEscrowFrees`).
- Round-robin selection is uneven across the wrap of its counter unless the number of services divides 2^64
  (`RoundRobin.FairForEver`).
- Some generated API keys can never be validated (`ApiKeys.CreatedKeyWorks`).

## Model

| member | source | states |
|---|---|---|
| FixedWindow.GrantBound | services/auth-service/internal/session/redis_store.go:261-276 | In every timed run of requests on one key, with INCR and the EXPIRE it owes as separate steps of any number of callers, at most 2·limit − 1 requests are granted in any interval of one window length (limit ≥ 1, any length). |
| FixedWindow.BoundIsAttained | services/auth-service/internal/session/redis_store.go:261-276 | For every limit ≥ 1 and window ≥ 2 there is a run with exactly 2·limit − 1 grants in such an interval, so the bound is tight. |
| FixedWindow.NoGrantsWithoutQuota | services/auth-service/internal/session/redis_store.go:275-275 | With a limit below 1 nothing is ever granted, in any interval. |
| FixedWindow.LimitIsKept | services/auth-service/internal/session/redis_store.go:261-276 | Every run grants at most max(limit, 0) requests in every interval of one window length if and only if the limit is at most 1 or the window at most one tick. |
| FixedWindow.WindowIsExact | services/auth-service/internal/session/redis_store.go:264-275 | Each counter window grants exactly min(max(limit, 0), requests made in it), and the counter equals the requests of the current window. |
| FixedWindow.RunHasShape | services/auth-service/internal/session/redis_store.go:265-273 | After every run a counter with a deadline keeps it for at least one window length from its first request, and a counter without a deadline belongs to a caller that still owes the EXPIRE. |
| FixedWindow.RunIsCharged | services/auth-service/internal/session/redis_store.go:261-276 | The invariant behind the bound: what the latest window and the earlier ones contribute to a fixed interval. |
| FixedWindow.AllowIsTwoEvents | services/auth-service/internal/session/redis_store.go:261-276 | A whole `Allow` call is the request step followed at once by the EXPIRE step, if one is owed. |
| FixedWindow.RateLimiter.Allow | services/auth-service/internal/session/redis_store.go:261-276 | The new counter and deadline of this key, the answer, and that no other key changes. |
| FixedWindow.RateLimiter.GetRemaining | services/auth-service/internal/session/redis_store.go:279-296 | Something remains exactly when the next `Allow` will be granted; the amount is limit − count, never below 0, and the whole limit for a missing counter. |
| FixedWindow.RateLimiter.Reset | services/auth-service/internal/session/redis_store.go:299-307 | The counter of this key is gone and no other is touched. |
| Commands.ListedExactly | services/auth-service/internal/session/redis_store.go:58-66 | For any log of Redis commands of any number of callers, and any later instant: a set holds an id if and only if the last command that touched it put it there and the set has not lapsed since. |
| Commands.AliveExactly | services/auth-service/internal/session/redis_store.go:55-55 | For any such log: a key is alive if and only if its latest SET is younger than its ttl and no DEL came after, and then it has that value. |
| Commands.PlayedIsCurrent | services/auth-service/internal/session/redis_store.go:226-228 | Nothing that a client sees has expired. |
| Commands.Send | services/auth-service/internal/session/redis_store.go:55-66 | Sending a command after a pause has the effect of that command on what was left after the pause. |
| AvailabilityIndex.SettledIsListed | services/redis-cache-service/main.go:153-298 | After any interleaving of the Redis commands of any number of setters and invalidations, and at any later instant: a live record that belongs in an index, and at whose key no setter has index commands left, is listed if and only if no earlier setter's SREM came after its SADD and the index has not lapsed since it was put there. |
| AvailabilityIndex.IndexIsComplete | services/redis-cache-service/main.go:153-298 | All such records are listed at every later instant, until they expire, if and only if that holds of each of them now: once a setter has sent its EXPIRE in time, its record is safe. |
| AvailabilityIndex.UndisturbedIsComplete | services/redis-cache-service/main.go:153-298 | If no setter begins for a key while another one is at the index, and no time passes between SADD and EXPIRE, the indexes are complete at every instant. |
| AvailabilityIndex.RunIsSound | services/redis-cache-service/main.go:153-298 | The invariant of every interleaving: an index outlives each record it lists unless an EXPIRE is still to come, and only an earlier setter's SREM can have taken a listed record off. |
| AvailabilityIndex.ListedAndAlive | services/redis-cache-service/main.go:153-210 | At every instant of every interleaving a GPU is listed if and only if a setter put it on the list after its last SREM and the list has not lapsed since; its record is alive if and only if the latest report is less than five seconds old and no invalidation came after. |
| AvailabilityIndex.OlderSetterUnlists | services/redis-cache-service/main.go:161-172 | In any run, the SREM of a setter whose record has been overwritten by a finished available one takes that GPU off the list. |
| AvailabilityIndex.OverlapUnlists | services/redis-cache-service/main.go:161-172 | There is such a run: two overlapping setters of one GPU. |
| AvailabilityIndex.LapseLosesGpu | services/redis-cache-service/main.go:167-169 | In any run, a setter that nobody disturbs ends with its GPU listed if and only if the list did not lapse between its SADD and its EXPIRE. |
| AvailabilityIndex.SecondGpuIsLost | services/redis-cache-service/main.go:167-169 | There is a run in which an EXPIRE that comes one second late hides an available GPU. |
| AvailabilityIndex.SilentGpuStaysListed | services/redis-cache-service/main.go:165-210 | There is a run in which a GPU whose record has expired stays listed because others renew the list. |
| AvailabilityIndex.UnlistedInside | services/redis-cache-service/main.go:161-168 | Between SET and SADD a record is alive and unlisted, for as long as it lives. |
| AvailabilityIndex.AloneIsSteps | services/redis-cache-service/main.go:153-180 | What a setter does on its own, with arbitrary pauses, is what the machine does when nobody else acts in between. |
| AvailabilityIndex.AvailableEffect | services/redis-cache-service/main.go:153-180 | What a report of an available GPU comes to: its record for five seconds, one more member of the list of available GPUs and of its provider's list, both good for five seconds, and no other change; in particular it stays on the list of an earlier provider. |
| AvailabilityIndex.UnavailableEffect | services/redis-cache-service/main.go:153-180 | What a report of an unavailable GPU comes to: off the list of available GPUs, whose deadline stays, and otherwise the same. |
| AvailabilityIndex.JobEffect | services/redis-cache-service/main.go:277-298 | What a job status comes to: the record for ten seconds, and a place on the user's list, then good for ten seconds, exactly for the statuses "running" and "queued"; a job that has ended is not taken off. |
| CacheKeys.NamesApart | services/redis-cache-service/main.go:86-121 | Two cache keys have the same name if and only if they are equal or both are quotas that spell the same text. |
| CacheKeys.QuotaIsShared | services/redis-cache-service/main.go:119-119 | Another caller and endpoint share a quota counter if and only if the caller id or the endpoint contains a colon. |
| CacheService.RedisCacheService.SetGPUAvailability | services/redis-cache-service/main.go:153-180 | The whole new cache state after all commands, with an arbitrary pause before each of them. |
| CacheService.RedisCacheService.GetAvailableGPUs | services/redis-cache-service/main.go:204-210 | Exactly the listed ids, each once. |
| CacheService.RedisCacheService.InvalidateGPUCache | services/redis-cache-service/main.go:391-398 | Only the record of this GPU is deleted; the indexes keep the id. |
| CacheService.RedisCacheService.SetJobStatus | services/redis-cache-service/main.go:277-298 | The whole new cache state, as for GPUs; a job that is no longer active is not taken off the list. |
| CacheService.RedisCacheService.ReadQuota | services/redis-cache-service/main.go:323-331 | The count of a live counter, 0 for a missing one, and whether it is below the limit. |
| CacheService.RedisCacheService.SpendQuota | services/redis-cache-service/main.go:333-337 | The counter is one higher and renewed; no other counter changes. |
| CacheService.RedisCacheService.CheckRateLimit | services/redis-cache-service/main.go:320-344 | The answer, the reported count, the new counter, and that other counters only age, if no other caller acts. |
| RefreshingQuota.OvershootBound | services/redis-cache-service/main.go:320-344 | With n concurrent callers between the read and the increment, the counter never exceeds limit + n − 1 (limit ≥ 1), in every interleaving including expiries. |
| RefreshingQuota.OvershootIsReached | services/redis-cache-service/main.go:320-344 | For every limit and n ≥ 1 an interleaving reaches limit + n − 1. |
| RefreshingQuota.SerialBound | services/redis-cache-service/main.go:320-344 | Called one at a time, at most `limit` calls are granted in any interval of 60 seconds. |
| RefreshingQuota.SerialIsCharged | services/redis-cache-service/main.go:320-344 | The invariant behind it: a live counter is at least the grants of the interval, because every grant renews its deadline and no refusal does. |
| RefreshingQuota.CallIsTwoEvents | services/redis-cache-service/main.go:320-344 | A call is its read step and, if that cleared it, its write step. |
| RefreshingQuota.CheckEffect | services/redis-cache-service/main.go:320-344 | A call is granted if and only if the live count it reads is below the limit; it then leaves one more than what is there at its write, good for sixty seconds from then. |
| SessionIndex.StaysListed | services/auth-service/internal/session/redis_store.go:41-223 | After any interleaving of the Redis commands of creates, updates, deletes and purges: a live session that is not being written stays listed for as long as it lives if and only if no other call has taken it off the list, the list has not lapsed since it was put there, and the list outlasts it. |
| SessionIndex.SettledIsListed | services/auth-service/internal/session/redis_store.go:41-223 | And it is listed at one given instant if and only if the first two hold and the list has not lapsed by then. |
| SessionIndex.OnlyOwnSessions | services/auth-service/internal/session/redis_store.go:155-175 | At every instant of every interleaving with fixed owners, what the list yields are live sessions of that user. |
| SessionIndex.AllOwnSessions | services/auth-service/internal/session/redis_store.go:41-223 | If every EXPIRE is for no less than the life of the user's listed sessions, no list lapses between SADD and EXPIRE, and no SREM or DEL hits a session written meanwhile, then at every instant at which no session of the user is being written GetUserSessions returns all of them, CountUserSessions is no lower, and DeleteAllUserSessions leaves none alive. |
| SessionIndex.WriteKeepsIndex | services/auth-service/internal/session/redis_store.go:41-69 | From a state in which every session is listed for life, a write with arbitrary pauses keeps it so if and only if no other session of the user outlasts the new list and the old list did not lapse between SADD and EXPIRE while the new session lives. |
| SessionIndex.RunIsOwned | services/auth-service/internal/session/redis_store.go:41-211 | The invariant of every interleaving: entries carry their id, owner and deadline, and lists hold only ids of their user. |
| SessionIndex.RunIsSound | services/auth-service/internal/session/redis_store.go:41-211 | In every interleaving, a session whose writer has been to the list has been on it. |
| SessionIndex.ConsiderateShowsAll | services/auth-service/internal/session/redis_store.go:41-211 | The invariant behind AllOwnSessions. |
| SessionIndex.AloneIsSteps | services/auth-service/internal/session/redis_store.go:41-128 | A write or delete that nobody interrupts is three steps of the machine. |
| SessionIndex.BeginEffect | services/auth-service/internal/session/redis_store.go:41-152 | Which calls get past their first command, and with what: a write of a session that has not expired, a delete of one that is there, a purge of exactly the listed ids. |
| SessionIndex.WritersAnswer | services/auth-service/internal/session/redis_store.go:41-104 | Create succeeds if and only if the session has not expired; Update, if and only if it is there and has not expired by the time it is written. Success leaves the entry until its own expiry, failure nothing but the time that passed. |
| SessionIndex.DeleteEffect | services/auth-service/internal/session/redis_store.go:107-128 | A delete succeeds if and only if the session is there; then the entry is gone, its owner's list does not name it, and every other entry, member and deadline has only aged. A failed one changes nothing. |
| SessionIndex.PurgeEffect | services/auth-service/internal/session/redis_store.go:131-152 | An undisturbed purge removes the listed entries and the list; every other entry and list has only aged. |
| SessionIndex.DeletingDeletes | services/auth-service/internal/session/redis_store.go:107-128 | In any interleaving the entry is gone after the second command of a delete, and its owner's list does not name it after the third. |
| SessionIndex.PurgingPurges | services/auth-service/internal/session/redis_store.go:131-152 | In any interleaving each command of a purge removes the entry it is for, and the last one the list. |
| SessionIndex.GoneStaysGone | services/auth-service/internal/session/redis_store.go:41-211 | A session that is gone stays gone in every further run without a write of it. |
| SessionIndex.DeleteUnlists | services/auth-service/internal/session/redis_store.go:107-128 | In any run, the SREM of a delete takes a session off the list that was written anew after the delete had removed its entry. |
| SessionIndex.DeleteOvertakesWrite | services/auth-service/internal/session/redis_store.go:92-128 | There is such a run. |
| SessionIndex.ShortSessionHidesLong | services/auth-service/internal/session/redis_store.go:66-66 | There is a run in which a shorter session, written last, hides a longer one once it expires. |
| SessionIndex.LateExpireLosesSession | services/auth-service/internal/session/redis_store.go:60-66 | There is a run in which a list that lapses between SADD and EXPIRE loses the session just written. |
| SessionIndex.ListedAreLive | services/auth-service/internal/session/redis_store.go:155-175 | What the list yields is contained in the user's live sessions, and equal to them when the list is complete. |
| SessionIndex.PurgeSparesUnlisted | services/auth-service/internal/session/redis_store.go:131-152 | DeleteAllUserSessions, undisturbed, spares exactly the sessions that the list does not name. |
| SessionKeys.NamesCollide | services/auth-service/internal/session/redis_store.go:238-244 | Two session-store keys have the same name if and only if they are equal or a session id spells out a user's list key. |
| SessionStore.RedisStore.Create | services/auth-service/internal/session/redis_store.go:41-69 | New store state and success, with pauses between the commands; an already expired session changes nothing (`SessionIndex.WritersAnswer`). |
| SessionStore.RedisStore.Get | services/auth-service/internal/session/redis_store.go:72-89 | The live entry under this id, if any. |
| SessionStore.RedisStore.Update | services/auth-service/internal/session/redis_store.go:92-104 | Create for an id that was there at the check, otherwise no change and failure. |
| SessionStore.RedisStore.UpdateActivity | services/auth-service/internal/session/redis_store.go:190-199 | New state and success of a write with a new activity time. |
| SessionStore.RedisStore.ExtendExpiration | services/auth-service/internal/session/redis_store.go:202-211 | New state and success of a write with a new expiry. |
| SessionStore.RedisStore.Delete | services/auth-service/internal/session/redis_store.go:107-128 | Success exactly if the session was there, and no session under this id is left; the new state is that of `SessionIndex.DeleteEffect`. |
| SessionStore.RedisStore.DeleteAllUserSessions | services/auth-service/internal/session/redis_store.go:131-152 | The entries of all ids listed at the start, and the list, are gone, however long it takes. |
| SessionStore.RedisStore.GetUserSessions | services/auth-service/internal/session/redis_store.go:155-175 | However long it takes: only sessions listed at the start, all of those that live to the end, none twice when entries carry their own id. |
| SessionStore.RedisStore.CountUserSessions | services/auth-service/internal/session/redis_store.go:214-223 | The size of the list, expired entries included. |
| Redis.Server.Evict | services/auth-service/internal/session/redis_store.go:226-234 | Reclaiming expired keys is invisible to every client. |
| Redis.Server.Tick | services/auth-service/internal/session/redis_store.go:227-227 | What is visible later is what has not expired by then. |
| Redis.Server.Incr | services/auth-service/internal/session/redis_store.go:265-265 | A live counter keeps its deadline; a missing one starts at 1 without any. |
| Redis.Server.SRem | services/auth-service/internal/session/redis_store.go:123-123 | A set that becomes empty disappears together with its deadline. |
| Redis.Server.SMembers | services/auth-service/internal/session/redis_store.go:135-135 | Every member exactly once. |
| Blacklist.BlacklistedStaysRefused | services/auth-service/internal/session/redis_store.go:324-350 | From Add on, through every run that neither removes the id nor adds it again with an earlier deadline while the token lives, the token is listed or expired at every instant. |
| Blacklist.StepKeepsRefusal | services/auth-service/internal/session/redis_store.go:324-361 | One operation keeps a refused token refused for good if and only if it is not one of those two. |
| Blacklist.OutlastsIsForGood | services/auth-service/internal/session/redis_store.go:324-350 | A token is refused at every later instant if and only if it has expired or its entry lasts at least as long as it does. |
| Blacklist.AddEffect | services/auth-service/internal/session/redis_store.go:324-338 | Adding a token that has not expired lists it exactly until its expiry, an expired one changes nothing, and no other token is touched. |
| Blacklist.RemoveEffect | services/auth-service/internal/session/redis_store.go:353-361 | Removing takes exactly this token off the list. |
| Blacklist.TokenBlacklist.Add | services/auth-service/internal/session/redis_store.go:324-338 | New state; an expired token is not stored. |
| Blacklist.TokenBlacklist.IsBlacklisted | services/auth-service/internal/session/redis_store.go:341-350 | True exactly for ids with a live entry. |
| Blacklist.TokenBlacklist.Remove | services/auth-service/internal/session/redis_store.go:353-361 | Only this entry is gone. |
| RevokedTokens.ListedUntilExpired | services/auth-service/pkg/jwt/jwt.go:130-160 | At every instant after such a run a token is on the list, or its expiry has passed and the validator with its secret answers that it has expired (section 4.1.4 of RFC 7519). |
| RevokedTokens.ListingChangesNoVerdict | services/auth-service/pkg/jwt/jwt.go:120-200 | A listed token that has not expired is accepted as before: no validator consults the list. |
| Jwt.ChainKeepsIdentity | services/auth-service/pkg/jwt/jwt.go:163-170 | A chain of rotations is accepted if and only if each step comes before the previous refresh token expires; the last pair then still speaks for the same user, email and roles, and only its own issue time bounds its life. |
| Jwt.IssuedPairWindow | services/auth-service/pkg/jwt/jwt.go:58-160 | Each token of a fresh pair is accepted, for its own purpose only, from its issue until the whole second begins in which it expires, and not after. |
| Jwt.KindsAreApart | services/auth-service/pkg/jwt/jwt.go:153-156 | No token is ever good both as access and as refresh token, even if both secrets are equal. |
| Jwt.AcceptedExactly | services/auth-service/pkg/jwt/jwt.go:120-160 | For every manager, token and time: a token is accepted for a purpose if and only if it is signed by HMAC with the secret of that purpose, is of that kind, and its dates include the time; the answer is then its own claims. |
| Jwt.RefusedBecause | services/auth-service/pkg/jwt/jwt.go:130-160 | Which error each refused token gets: the signature is checked first, then the dates, then the kind. |
| Jwt.PairSpeaksFor | services/auth-service/pkg/jwt/jwt.go:58-117 | Both tokens of a pair carry the user, email, roles and token id they were issued for, and a manager with other secrets never accepts either. |
| Jwt.RotationSpeaksForTheSame | services/auth-service/pkg/jwt/jwt.go:163-170 | A rotation succeeds if and only if the presented token is a good refresh token of this manager, and both new tokens carry its user, email and roles. |
| Attempts.NewestRowDecides | services/auth-service/internal/handlers/login_helpers.go:16-39 | After every serial run, at every later time, reading only the newest attempt row gives the same answer as looking for any row whose lock is still running. |
| Attempts.LockoutSpacing | services/auth-service/internal/handlers/login_helpers.go:42-71 | From the M-th failure within 15 minutes on, the next recorded attempt of any kind is at least a lockout later. |
| Attempts.FailuresInWindow | services/auth-service/internal/handlers/login_helpers.go:42-71 | Any 15 minutes hold at most max(M, 1) failures plus one per lockout that fits into them; with a lockout of at least 15 minutes, at most max(M, 1). |
| Attempts.RunIsSerial | services/auth-service/internal/handlers/login.go:103-167 | The run invariant: rows in time order, every lock explained by the count of earlier failures, and nothing recorded while an earlier row locked the account. |
| Attempts.RunIsPaid | services/auth-service/internal/handlers/login_helpers.go:42-71 | The invariant behind the window bound. |
| Attempts.UncheckedRecord | services/auth-service/internal/handlers/login_helpers.go:42-71 | An attempt recorded without a fresh check keeps the newest row decisive if and only if the account was not locked, or the attempt is a failure and the failures before it suffice for a lock. |
| Attempts.RecordEffect | services/auth-service/internal/handlers/login_helpers.go:42-71 | A record locks the account if and only if it is a failure with at least maxAttempts - 1 others in the 900 seconds before it, from then on for exactly the length of the lockout. |
| Attempts.LoginEffect | services/auth-service/internal/handlers/login.go:103-230 | Which logins record an attempt: none of a locked account; otherwise an unknown user and a wrong password as failures, a complete login as a success, and nothing else. |
| Attempts.OverlapUnlocks | services/auth-service/internal/handlers/login_helpers.go:16-71 | Two logins that both check before either records, a failure that locks and then a success, leave a locked account open. |
| LoginAttempts.LoginHandler.IsAccountLocked | services/auth-service/internal/handlers/login_helpers.go:16-39 | Locked exactly if a newest row of the address locks it, whichever row that is when several are equally new; with distinct times, the newest-row check of the runs. |
| LoginAttempts.LoginHandler.CountFailed | services/auth-service/internal/handlers/login_helpers.go:45-52 | The number of failures of this address after a time. |
| LoginAttempts.LoginHandler.RecordLoginAttempt | services/auth-service/internal/handlers/login_helpers.go:42-71 | The new rows of this address, lock included; other addresses are untouched. |
| LoginAttempts.LoginHandler.Login | services/auth-service/internal/handlers/login.go:103-230 | Which outcomes of a login record an attempt, and which, given the newest row the check saw; a locked account records none. |
| Rotation.OneSuccessor | services/auth-service/internal/handlers/login.go:266-333 | Of all tokens ever generated for one presented refresh token, at most one is ever accepted, at whatever two moments of whatever run. |
| Rotation.RetiredStaysDead | services/auth-service/internal/handlers/login.go:310-321 | A rotated-away token is never accepted again, in any continuation. |
| Rotation.DeadSessionStaysDead | services/auth-service/internal/handlers/login_helpers.go:152-213 | Once a session was revoked, or is past the expiry fixed at login, no token it holds is ever accepted again. |
| Rotation.OneTokenPerSession | services/auth-service/internal/handlers/login.go:266-333 | Two acceptable tokens of one session are the same token, and one token never serves two sessions. |
| Rotation.AnswerIsGood | services/auth-service/internal/handlers/login.go:310-333 | A refresh answers with the new token in any case; that token is good if and only if the session still held the presented one and was alive at the update. |
| Rotation.UnmatchedAnswerIsWorthless | services/auth-service/internal/handlers/login.go:316-333 | If the UPDATE matches no row, the token answered with is never accepted, in any continuation. |
| Rotation.SecondRefreshFindsNoRow | services/auth-service/internal/handlers/login.go:266-333 | Of two refreshes that have generated tokens for the same one, whichever updates second matches no row. |
| Rotation.WorthlessAnswerHappens | services/auth-service/internal/handlers/login.go:266-333 | There is such a run, for every manager whose refresh tokens live a second or more. |
| Rotation.RunIsSound | services/auth-service/internal/handlers/login.go:266-382 | The invariant of every interleaving of login, the three steps of any number of refreshes, logout and revocation. |
| Rotation.RunExtends | services/auth-service/internal/handlers/login.go:266-382 | No run takes back a revocation, a session's user or expiry, or the history of tokens. |
| Rotation.LoginEffect | services/auth-service/internal/handlers/login.go:200-218 | After any run, a login's refresh token is accepted at a later time if and only if neither its session nor, to the whole second, the token has expired. |
| Rotation.CheckEffect | services/auth-service/internal/handlers/login.go:266-309 | A refresh gets past its check if and only if the account is active, the token is a good refresh token, and a row of its user holds it that is neither revoked nor expired. |
| SessionTable.LoginHandler.CreateSession | services/auth-service/internal/handlers/login_helpers.go:132-149 | For every user, token and time: valid afterwards exactly if valid before, or the new token up to its fixed expiry. |
| SessionTable.LoginHandler.IsSessionValid | services/auth-service/internal/handlers/login_helpers.go:152-180 | The verdict on some row that holds the token, invalid if there is none; while tokens are unique, whether any such row is alive. |
| SessionTable.LoginHandler.UpdateSession | services/auth-service/internal/handlers/login_helpers.go:183-191 | The loop over the rows replaces the token exactly where it is held; a new token takes over exactly what the old one was good for, at every time. |
| SessionTable.LoginHandler.RevokeSession | services/auth-service/internal/handlers/login_helpers.go:194-202 | The token is good for this user at no time any more; every other user and token is as good as before. |
| SessionTable.LoginHandler.RevokeAllSessions | services/auth-service/internal/handlers/login_helpers.go:205-213 | No token is good for this user at any time any more; every other user's is as good as before, and earlier revocations keep their time. |
| SessionTable.LoginHandler.RevokeSessionById | services/auth-service/internal/handlers/login_helpers.go:288-331 | Found if and only if the session is the caller's own and not yet revoked; it is then good at no time any more, and no other row changes. |
| Delivery.ExactlyOnce | clients/provider-daemon/internal/nats/client.go:95-253 | If every settlement comes before AckWait is over: for any number of fetch loops and any order of events, a message for this daemon has been accepted at most once, and exactly once if and only if it is gone or about to be acknowledged. |
| Delivery.ReliableHoldsOnce | clients/provider-daemon/internal/nats/client.go:95-253 | Then no two loops hold the same message, no acknowledgement is lost and nothing is dropped; this follows from deadlines alone, since an overdue message may be fetched by another loop. |
| Delivery.Conservation | clients/provider-daemon/internal/nats/client.go:95-253 | Whatever is late, lost or held by several loops at once: the acceptances are the loops that still have it in hand plus the acknowledgements that arrived or never will, and a message for this daemon is gone if and only if one of them, or an Ack after a failed Nak, arrived. |
| Delivery.StartsOfDeparted | clients/provider-daemon/internal/nats/client.go:195-253 | When a departed message was started never, and when more than once. |
| Delivery.StartedAgain | clients/provider-daemon/internal/nats/client.go:180-253 | In any state, a message in the stream is started (again) by the next healthy loop that asks for it if and only if the delivery before has run out. |
| Delivery.LateAckStartsTwice | clients/provider-daemon/internal/nats/client.go:180-253 | For every AckWait there is a run in which two loops accept one message and both acknowledgements arrive. |
| Delivery.LostAckStartsTwice | clients/provider-daemon/internal/nats/client.go:244-253 | There is a run in which a lost Ack has a message started twice. |
| Delivery.FailedNakLosesTask | clients/provider-daemon/internal/nats/client.go:232-240 | There is a run in which a failed Nak, followed by an Ack that arrives, loses a message unstarted. |
| Delivery.Client.HandleMessage | clients/provider-daemon/internal/nats/client.go:195-253 | What becomes of one delivered message in each branch, for every duration and every fate of the settlement calls. |
| Delivery.HandledEffect | clients/provider-daemon/internal/nats/client.go:195-253 | What becomes of a message by payload, instance, health and fate of the settlement calls: whether it is started, acknowledged, dropped, or due again thirty seconds later. |
| Delivery.Client.SendAck | clients/provider-daemon/internal/nats/client.go:202-218 | An Ack that arrives removes the message, a lost one leaves it to come again. |
| Delivery.HandledIsSteps | clients/provider-daemon/internal/nats/client.go:195-253 | That method is the steps of the interleaving machine taken one after the other. |
| TaskRuns.JobLifecycle | clients/provider-daemon/internal/tasks/handler.go:78-194 | In every interleaving, everything reported about a job is its rejections (Failed*) followed by the story of its one run as far as it got: Preparing, then Failed, or InProgress, then Completed or Failed, then the end-of-session call if one is due. |
| TaskRuns.ActiveJobs | clients/provider-daemon/internal/tasks/handler.go:78-194 | The active jobs are exactly the accepted ones without a terminal report; without a reporter they are all jobs ever accepted. |
| TaskRuns.BillingClosesOnce | clients/provider-daemon/internal/tasks/handler.go:101-226 | Exactly one end-of-session call for a finished run with a valid session id and a billing client, none in any other case. |
| TaskRuns.AbortedLeavesSessionOpen | clients/provider-daemon/internal/tasks/handler.go:101-107 | A run without a workspace has reported Preparing and Failed, and in no continuation is its session ever ended. |
| TaskRuns.NoWorkspaceAborts | clients/provider-daemon/internal/tasks/handler.go:101-107 | Every new job, billable ones included, gets there when its workspace cannot be made. |
| TaskRuns.ExecutionReports | clients/provider-daemon/internal/tasks/handler.go:117-149 | An execution reports Completed if and only if the task's kind has a configured executor that returned no error and exit code 0, and Failed otherwise. |
| TaskRuns.RunsAreTruthful | clients/provider-daemon/internal/tasks/handler.go:101-226 | In every interleaving the terminal report of an executed job, and the reason its session is ended with, are those of a success if and only if the outcome of its execution was one. |
| TaskHandler.Handler.HandleTask | clients/provider-daemon/internal/tasks/handler.go:78-99 | Accepted exactly if healthy; what is reported and how the active jobs change in both cases. |
| TaskHandler.Handler.RunTask | clients/provider-daemon/internal/tasks/handler.go:101-166 | All effects of one run in order, for every executor configuration and outcome: Completed and job-finished exactly for a configured executor without error and with exit code 0; the job leaves the active ones exactly if there is a reporter. |
| TaskHandler.Handler.ReportTaskStatus | clients/provider-daemon/internal/tasks/handler.go:168-194 | Without a reporter nothing happens; otherwise one report, terminal statuses remove the job, and success is that of publishing. |
| TaskHandler.Handler.EndBillingSession | clients/provider-daemon/internal/tasks/handler.go:199-226 | One call with the reason that belongs to the final status, or none. |
| TaskHandler.RunTaskIsSteps | clients/provider-daemon/internal/tasks/handler.go:101-166 | That method is the three steps of the interleaving machine. |
| GpuHealth.HealthMonitor.constructor | clients/provider-daemon/internal/gpu/health.go:30-44 | Healthy at first; non-positive settings are replaced by 30 and 3. |
| GpuHealth.HealthMonitor.Check | clients/provider-daemon/internal/gpu/health.go:62-87 | One more check in the history, with the invariant that ties the flag and the counter to it. |
| GpuHealth.HealthMonitor.Healthy | clients/provider-daemon/internal/gpu/health.go:90-94 | False if and only if the last failureThreshold checks all failed. |
| GpuHealth.TrailingMeansLast | clients/provider-daemon/internal/gpu/health.go:71-86 | A run of trailing failures of length n is the same as the last n checks all having failed. |
| RentalLedger.LedgerIsSound | services/rental-service/main.go:45-283 | With atomic handlers, after every run from any state with exclusive GPUs and well-formed rentals: at most one live rental per GPU, which is then busy; balance plus charges of each user stay what they were; every completed rental cost its duration times its price. |
| RentalLedger.HistoryIsFixed | services/rental-service/main.go:135-283 | In every run a rental only moves forward, keeps its user, GPU and price, and once completed keeps status, times and cost. |
| RentalLedger.CommitKeepsExclusive | services/rental-service/main.go:83-118 | A commit keeps exclusivity if and only if the GPU has no live rental at that moment, whatever the check before it saw. |
| RentalLedger.OverlappingCreatesDoubleBook | services/rental-service/main.go:58-118 | Two creates that both check before either commits always book the GPU twice. |
| RentalLedger.StartedMeansLittle | services/rental-service/main.go:153-199 | startRental answers "started" for every id; exactly when the rental is running afterwards, and that otherwise only connection info was written. |
| RentalLedger.StrangerIsToldStarted | services/rental-service/main.go:153-199 | A stranger who starts somebody else's pending rental is told "started" and rewrites its connection info. |
| RentalLedger.CreateIsSound | services/rental-service/main.go:45-133 | createRental keeps the ledger sound. |
| RentalLedger.StopIsSound | services/rental-service/main.go:201-283 | stopRental keeps the ledger sound. |
| RentalLedger.CreateEffect | services/rental-service/main.go:45-133 | A create is accepted if and only if the GPU exists and is available, the user exists, and hours times price is within the balance; then there is one more pending rental of this user and GPU at the GPU's price and the GPU is busy, otherwise nothing changes. |
| RentalLedger.CreateRefusals | services/rental-service/main.go:57-89 | Which refusal each other create gets. |
| RentalLedger.StartEffect | services/rental-service/main.go:153-199 | A start of the caller's own pending rental makes it run from now on, paid and connected, and changes nothing else. |
| RentalLedger.StopEffect | services/rental-service/main.go:201-283 | A stop is accepted if and only if the rental is the caller's own, running and started; it then costs its seconds divided by 3600 times its price, the user pays that, the GPU is available, and nothing else changes. |
| RentalService.RentalService.CreateRental | services/rental-service/main.go:45-133 | The reply in each branch and the new tables, those of `RentalLedger.CreateEffect`. |
| RentalService.RentalService.StartRental | services/rental-service/main.go:135-199 | The answer and the new tables after both updates. |
| RentalService.RentalService.StopRental | services/rental-service/main.go:201-283 | The reply and the new tables. |
| EscrowLedger.EscrowIsConserved | services/api-gateway/main-simple.go:213-400 | With atomic creates, after every run from any sound state: balance = available + locked, locked = the user's escrows, available never below zero, and a GPU has exactly one rental when rented and none otherwise. |
| EscrowLedger.LockedWithinBalance | services/api-gateway/main-simple.go:338-377 | If no escrow is negative, the locked part stays between zero and the balance. |
| EscrowLedger.NegativeEscrowFrees | services/api-gateway/main-simple.go:347-350 | A create is refused only for an escrow above what is available; a negative one frees more than the balance exactly when it exceeds what is locked. |
| EscrowLedger.OneWalletOnly | services/api-gateway/main-simple.go:229-243 | Once one createWallet has succeeded, none ever does again, for any user, in any run. |
| EscrowLedger.CreateWalletEffect | services/api-gateway/main-simple.go:213-266 | Which reply each request for a wallet gets; a new wallet starts with 1000 available and nothing locked. |
| EscrowLedger.CreateRentalEffect | services/api-gateway/main-simple.go:303-400 | A rental is accepted if and only if the GPU is available and the wallet has the escrow available; the escrow then moves from available to locked, the rental records it with the GPU's own price, and the GPU is rented. |
| SimpleGateway.APIGateway.CreateWalletFor | services/api-gateway/main-simple.go:213-266 | The reply in each branch, including the failing insert, and the new tables. |
| SimpleGateway.APIGateway.CreateRentalFor | services/api-gateway/main-simple.go:303-400 | The reply in each branch and the new tables. |
| HubDelivery.HubIsSound | services/api-gateway/internal/websocket/hub.go:60-104 | In every run and for every client: the hub never sends on or closes a closed channel, the channel is closed exactly for those no longer registered, and the broadcasts received or queued are exactly those processed between joining and leaving, in order and without gaps, whatever direct messages come between. |
| HubDelivery.ClosedIsFinal | services/api-gateway/internal/websocket/hub.go:60-104 | Once a channel is closed no further run closes it again or puts anything into it; the client can only empty it. |
| HubDelivery.FeltIsSound | services/api-gateway/internal/websocket/hub.go:60-104 | Each kind of event keeps the invariant of each registration. |
| HubDelivery.ServedIsSound | services/api-gateway/internal/websocket/hub.go:76-87 | The broadcast branch keeps it, with and without room. |
| HubDelivery.QueueFits | services/api-gateway/internal/websocket/hub.go:60-104 | In every run no channel holds more than its capacity. |
| HubDelivery.BroadcastEffect | services/api-gateway/internal/websocket/hub.go:76-87 | After any run, a broadcast reaches exactly the clients in the map whose queue is not full and cuts off exactly the others in it. |
| HubDelivery.DirectEffect | services/api-gateway/internal/websocket/hub.go:92-236 | After any run, a message to a user, or a pong, is queued exactly for those it is meant for that are in the map and have room, and changes nothing else. |
| HubDelivery.UnregisterEffect | services/api-gateway/internal/websocket/hub.go:69-75 | After any run, an unregistration closes the channel of exactly that client, if it is still in the map; nobody else and nothing queued is touched. |
| HubDelivery.ReceiveEffect | services/api-gateway/internal/websocket/hub.go:175-203 | After any run, the write pump takes out exactly the oldest message, from a closed channel too. |
| HubDelivery.PanicsExactly | services/api-gateway/internal/websocket/hub.go:69-104 | What the invariant excludes: closing, or sending on, a closed channel of a client in the map. |
| WebSocketHub.Hub.Broadcast | services/api-gateway/internal/websocket/hub.go:76-87 | Every client is offered the message; exactly those without room are closed and removed, and the map is otherwise unchanged. |
| WebSocketHub.Hub.BroadcastToUser | services/api-gateway/internal/websocket/hub.go:92-104 | Every client of the user gets the message if there is room, and nobody is removed. |
| WebSocketHub.Hub.Register | services/api-gateway/internal/websocket/hub.go:65-68 | The client is in the map. |
| WebSocketHub.Hub.Unregister | services/api-gateway/internal/websocket/hub.go:69-75 | The client is out of the map and its channel closed, once. |
| WebSocketHub.Hub.Serve | services/api-gateway/internal/websocket/hub.go:79-84 | One client's turn: queued, or closed and deleted. |
| WebSocketHub.Client.WriteBatch | services/api-gateway/internal/websocket/hub.go:175-203 | One wake-up writes the whole queue in order; if no writer opens, only the first message is taken, and lost. |
| DevicePlugin.PreferredIsGreedy | services/dantegpu-device-plugin/main.go:91-124 | The must-include list stays in front; what is added is available, not repeated, exactly min(max(size − must, 0), available not in must) many; the size is missed only when everything available is used. |
| DevicePlugin.UnusedInOrder | services/dantegpu-device-plugin/main.go:104-121 | Added ids come in the order in which they first occur in the available list. |
| DevicePlugin.UnusedMeans | services/dantegpu-device-plugin/main.go:104-121 | The candidates are exactly the available ids that are not included yet, each once. |
| DevicePlugin.PreferredAllocation | services/dantegpu-device-plugin/main.go:91-124 | The nested loops compute that list. |
| DevicePlugin.DevicesAreDistinct | services/dantegpu-device-plugin/main.go:310-328 | Exactly 10 · gpuCount devices, with pairwise different ids. |
| DevicePlugin.DeviceIdIsInjective | services/dantegpu-device-plugin/main.go:319-319 | GPU and fraction can be read back from a device id. |
| Decimal.PrintIsInjective | services/dantegpu-device-plugin/main.go:319-319 | Different numbers print differently. |
| Decimal.PrintDenotes | services/dantegpu-device-plugin/main.go:319-319 | What is printed is read back as the number, and begins with a zero only for zero. |
| DevicePlugin.DeviceAtIndex | services/dantegpu-device-plugin/main.go:310-328 | The k-th device is healthy and named after GPU k / 10 and fraction k mod 10. |
| DevicePlugin.DanteGPUDevicePlugin.InitializeDevices | services/dantegpu-device-plugin/main.go:310-328 | All devices in order; a negative count panics before anything changes. |
| DevicePlugin.AllocateContainer | services/dantegpu-device-plugin/main.go:151-162 | The device specifications and annotations of one container. |
| DevicePlugin.SpecAt | services/dantegpu-device-plugin/main.go:151-159 | As many specifications as ids; the i-th has a container path numbered i and the host path of the i-th id. |
| DevicePlugin.AnnotationAt | services/dantegpu-device-plugin/main.go:160-161 | The annotation "dante.ai/gpu-i-id" gives back the id at position i, for every position, even when ids repeat. |
| DevicePlugin.AnnotationCount | services/dantegpu-device-plugin/main.go:160-161 | There are as many annotations as ids. |
| RoundRobin.FairForEver | services/api-gateway/internal/loadbalancer/balancer.go:38-46 | For 0 < n < 2^64 services: every stretch of calls from every counter value selects each service m/n times, rounded down or up, if and only if n divides 2^64. |
| RoundRobin.FairWithoutWrap | services/api-gateway/internal/loadbalancer/balancer.go:38-46 | As long as the counter does not wrap, any m consecutive calls are fair for any n, whoever makes them. |
| RoundRobin.UnfairAcrossWrap | services/api-gateway/internal/loadbalancer/balancer.go:43-46 | Otherwise service 0 is selected twice within one round across the wrap. |
| RoundRobin.RoundRobin.Next | services/api-gateway/internal/loadbalancer/balancer.go:38-46 | The selected index, the 64-bit increment, and no advance when there is no service. |
| ApiKeys.CreatedKeyWorks | services/auth-service/internal/handlers/api_keys.go:49-279 | A key just created under a new prefix is accepted, for its user and with its scopes, until it expires, if and only if none of the first eight base64 sextets is 63 and no scope contains a comma; with such a sextet it is never accepted. |
| ApiKeys.PrefixRoundTrip | services/auth-service/internal/handlers/api_keys.go:213-270 | The prefix is read back from a generated key if and only if none of those sextets is 63; otherwise something shorter is read. |
| ApiKeys.AcceptedExactly | services/auth-service/internal/handlers/api_keys.go:211-256 | A key is accepted if and only if the first row under its prefix is active, has not expired and holds the hash of this very key; the answer is that row's user and scopes. |
| ApiKeys.UnknownKeyIsRefused | services/auth-service/internal/handlers/api_keys.go:247-250 | A key whose hash no row holds is refused, for all rows and times. |
| ApiKeys.CreatedKeyEnds | services/auth-service/internal/handlers/api_keys.go:49-256 | What a created key is answered at any time, while active and after: unreadable prefix, revoked, expired after its days of 86400 seconds, or accepted. |
| ApiKeys.KeyLayout | services/auth-service/internal/handlers/api_keys.go:62-115 | How a key is laid out from its secret, and what is stored of it. |
| Base64Url.EncodingIsReadBack | services/auth-service/internal/handlers/api_keys.go:268-269 | The encoded secret can be decoded, so different secrets give different keys. |
| Base64Url.EncodingIsPadded | services/auth-service/internal/handlers/api_keys.go:268-269 | Length, padding and zero spare bits of the encoding, as section 4 of RFC 4648 asks. |
| Base64Url.UnderscoreInFirstEight | services/auth-service/internal/handlers/api_keys.go:268-269 | An underscore among the first eight characters comes exactly from a sextet of value 63 (section 5 of RFC 4648). |
| Strings.SplitUndoesJoin | services/auth-service/internal/handlers/api_keys.go:95-255 | Splitting undoes joining if and only if there is a part to join and no part contains the separator. |
| ApiKeys.APIKeyHandler.CreateAPIKey | services/auth-service/internal/handlers/api_keys.go:49-115 | No scopes are refused; otherwise the key handed out and the row stored. |
| ApiKeys.APIKeyHandler.ValidateAPIKey | services/auth-service/internal/handlers/api_keys.go:211-256 | The answer in each branch, in the order of the checks. |

## Left out

- HTTP decoding and encoding, JSON, logging, audit records, e-mail, Consul, Docker and shell execution: input and output only.
- Errors of Redis, SQL and NATS calls other than those the model names: each such call is taken to succeed.
- Sub-second deadlines: the clock ticks in whole units, and the rounding that a Redis client applies to EXPIRE is not modelled (go-redis is not part of this model).
- Keys of different families are kept in separate typed spaces; `SessionKeys.NamesCollide` and `CacheKeys.NamesApart` say for which ids that is exact.
- CacheService.RedisCacheService.CheckRateLimit: says nothing about other callers between its read and its pipeline; `ReadQuota` and `SpendQuota` are the two halves, and `RefreshingQuota.OvershootBound` is about callers that interleave them.
- SessionStore.RedisStore.GetUserSessions: the order of the result is that of SMEMBERS, which is arbitrary, and no other call acts within the method.
- LoginAttempts.LoginHandler.Login: the verdict of the user table, the password and the second factor is an input.
- Jwt.IssuedPairWindow: parsing, signing and other algorithms are abstract, and so is the library's clock tolerance (none); ErrInvalidClaims cannot arise in the model.
- WebSocketHub.Client.WriteBatch: write deadlines and pings of the connection are not modelled.
- Delivery.Conservation: limits of the stream (age, size, number of deliveries) and a second daemon on the same consumer do not appear.
- TaskHandler.Handler.HandleTask: the run it starts is `RunTask`, which another goroutine executes; a job id offered again after acceptance starts a second run, which the run machine excludes.
- The hub deletes from its map while holding only a read lock, and a ping answered after the client was cut off sends on a closed channel: data races and the client's own goroutine are outside the serialised hub.
- ApiKeys.CreatedKeyWorks: an expiry of n days is n times 24 hours, calendar shifts are not modelled.
- RoundRobin.RoundRobin.Next: selects an index; building the address and scheme of the URL is left out.
- DevicePlugin.PreferredAllocation: one container request; the surrounding loop over requests only collects the answers.
- DevicePlugin.AllocateContainer: environment variables and the fixed mount are left out.
- InvalidateUserCache deletes a user's list of active jobs, so the completeness of that list is claimed only for runs without it.
- User sessions, pricing and statistics of the cache service: plain gets and sets.
- RevokeAPIKey, ListAPIKeys, password reset, e-mail verification and second-factor sessions: they would add only easy members or have no positive property.
- Job rows, listings and other read-only handlers of the gateways.
- Rounding of floating-point money and hours.
