# A verified model of the finance dashboard backend

The project models the transactional backend of the finance dashboard as a state machine over its
tables and proves what its services promise about one call, about concurrent postings and about
whole runs.

| part | files |
|---|---|
| rows, tables, the database object | `Tables.dfy`, `Common.dfy`, `Money.dfy`, `Sums.dfy` |
| double-entry ledger: meaning, imperative service, arithmetic facts, histories, trail, concurrency | `Ledger.dfy`, `LedgerService.dfy`, `LedgerFacts.dfy`, `LedgerHistory.dfy`, `LedgerTrail.dfy`, `LedgerProtocol.dfy` |
| audit trail, outbox and publisher | `Audit.dfy`, `Outbox.dfy` |
| users, accounts, sign-in, refresh tokens | `Users.dfy`, `Accounts.dfy`, `Auth.dfy`, `Tokens.dfy`, `TokenFacts.dfy` |
| financial records and dashboards | `Records.dfy`, `Dashboard.dfy` |
| idempotency middleware, rate limiter | `Idempotency.dfy`, `RateLimiter.dfy` |
| what every call accepts, stores and answers, said of its request | `Outcomes.dfy` |
| the whole backend: one state machine and its theorems | `Backend.dfy`, `BackendLedger.dfy`, `BackendTrail.dfy`, `BackendTokens.dfy`, `BackendRoles.dfy`, `BackendDashboard.dfy`, `BackendCached.dfy`, `BackendSafety.dfy` |

Every service call has two forms. A function maps the tables before the call to the tables and the
reply after it; a method of a class performs the same statements on a `Database` object in place and
is proved equal to the function. The theorems are about the functions and the runs built from them.

Conventions. Amounts in requests are exact decimals, modelled as `real` in units of 0.0001; a
`numeric(19,4)` column holds whole units, rounds half away from zero and refuses values that do not
fit. Time is a monotone clock in nanoseconds, passed in. Random values (UUIDs, refresh tokens) come
from one supply of fresh numbers. Hashes are collision-free. `faultAt` names the database statement
that fails, counted in the order the code issues them; 0 means none. A failed transaction restores
the snapshot it started from.

Three levels carry the ledger. `LedgerService.dfy` is one posting as imperative code: the validation
loop, dedupe, ordered locks, working copies shared through a pointer map, one write per account.
`LedgerProtocol.dfy` interleaves the single statements of any number of postings with faults and
other clients, and refines the atomic postings of `LedgerHistory.dfy`. `Backend.dfy` then runs
atomic calls of all services together, so that the trial balance, the trace, the token chains, role
provenance and bounded staleness hold over every run.

Where the code and its own words differ, the model follows the code:

- The comment at `middleware/idempotency.go:24` scopes keys per user. The lookup is by key alone, so
  one user's key answers another user's request (`Idempotency.KeyIsGlobal`).
- The 24 hours of protection documented in the repository's `README.md:106-107` need a key without any
  stored row and working lookups. An expired row that is still stored makes the later insert fail, and a
  retry then runs the handler again; the cleanup that would remove such rows runs only after a poll that
  found unpublished entries. A lookup query that fails for any reason counts as a miss
  (`middleware/idempotency.go:56-58`), so such a retry runs the handler under a live key.
  `Idempotency.RetryProtectedIff` gives the exact condition, `Idempotency.StaleRowRunsTwice` and
  `Idempotency.FailedLookupRunsTwice` the two unprotected cases.
- The comment at `services/ledger_service.go:40-41` asks that debits equal credits in every
  transaction. That is checked on unrounded amounts and across all currencies; the stored rows may
  differ by the bound in `LedgerFacts.PostingImbalance`. The practical guard is four-decimal amounts
  (`LedgerFacts.AllOnGrid`), which makes them equal; `LedgerFacts.StoredBalancedIff` is the exact
  condition.
- `services/user_service.go:79-82` and the matching lines of `UpdateRecord` read the row back after
  the commit; a failure there is reported as an error although the update stands
  (`BackendTrail.AllOrNothing`).
- The repository's `README.md:46` draws the role check before the idempotency layer. In
  `routes/routes.go:121-122` authentication comes first, then idempotency, and the role check of the
  route last. A request that authentication refuses is not stored; one that the role check refuses is
  stored and replayed like any other response (`BackendCached.dfy`).

## Model

| member | source | states |
|---|---|---|
| Money.RoundNear | models/ledger_entry.go:29 | a stored amount lies within half a unit (0.0001) of the exact one |
| Money.RoundExactIff | models/ledger_entry.go:29 | storing loses nothing exactly for amounts with at most four decimals |
| Money.RoundHalfAway | models/ledger_entry.go:29 | halves round away from zero, alike on both sides |
| Ledger.FirstBad | services/ledger_service.go:51-57 | the index of the first entry that fails validation, with every earlier entry well formed |
| Ledger.PostTransactionAllOrNothing | services/ledger_service.go:42-170 | a posting succeeds exactly when the request is valid, every account exists, every written value fits its column and no statement fails; on an error all tables are as before |
| Outcomes.OnlyBalancedPostingsPass | services/ledger_service.go:43-95 | an accepted posting has at least two entries, only positive amounts, debits and credits with equal totals, and existing accounts; anything else is a validation error that leaves the tables alone |
| Outcomes.NonPositiveAmountRefused | services/ledger_service.go:51-54 | a zero or negative amount anywhere is a validation error that leaves the tables alone |
| Outcomes.ComplaintIsFirst | services/ledger_service.go:51-57 | the message follows the first wrong entry, amount before side |
| Outcomes.PostedRows | services/ledger_service.go:104-122 | one stored row per entry in order, under one new transaction id, rounded, with the currency defaulted and the description of the request; the caller gets the unrounded amounts |
| Outcomes.PostingIff | services/ledger_service.go:72-163 | a balanced posting on existing accounts succeeds exactly if every written value fits its column and none of its statements, counted one by one, fails |
| LedgerServices.WorkingAccount.Book | services/ledger_service.go:127-141 | the switch on account type and side adds the type-signed amount to the working balance |
| LedgerServices.LedgerService.Validate | services/ledger_service.go:43-67 | the loop accepts exactly the valid requests (two or more entries, positive amounts, known sides, equal totals) and otherwise reports the first complaint in source order |
| LedgerServices.LedgerService.UniqueAccounts | services/ledger_service.go:73-81 | every requested account once, no other, with as many ids as distinct accounts |
| LedgerServices.LedgerService.LockAccounts | services/ledger_service.go:85-91 | exactly the existing rows, read in ascending id order into fresh working copies |
| LedgerServices.LedgerService.BuildMap | services/ledger_service.go:97-101 | every fetched row can be reached through the pointer map under its own id |
| LedgerServices.LedgerService.FetchAccounts | services/ledger_service.go:73-101 | fails with the invalid-account error exactly when some requested id has no row; otherwise the copies read the committed balances |
| LedgerServices.LedgerService.InsertEntries | services/ledger_service.go:103-142 | the loop stores one row per entry in order and leaves each shared copy at its old balance plus the sum of all entries that name it |
| LedgerServices.LedgerService.Flush | services/ledger_service.go:144-149 | writing each copy once, in any map order, gives one and the same table |
| LedgerServices.LedgerService.WriteRows | services/ledger_service.go:103-149 | inserts, accumulation and flush together are the posting as a function of the books before it |
| LedgerServices.LedgerService.RunTransaction | services/ledger_service.go:72-163 | the transaction body commits exactly the posting and its audit pair, or reports the error of the first failing step |
| LedgerServices.LedgerService.PostTransaction | services/ledger_service.go:42-170 | the service call as imperative code equals the atomic posting, rollback at any failing statement included |
| LedgerFacts.WriteBackIsPost | services/ledger_service.go:97-149 | writing accumulated working copies back equals settling every named account once against all its entries |
| LedgerFacts.WorkedFits | services/ledger_service.go:103-149 | the rows and balances all fit their columns exactly when the posting is storable |
| LedgerFacts.WorkingCopyRefinesOneByOne | services/ledger_service.go:73-149 | on four-decimal amounts, dedupe, accumulate and write once gives the same balances as applying the stored entries to the table one by one, for repeated accounts too (LedgerFacts.SettledDrift bounds the difference otherwise) |
| LedgerFacts.NetPermutation | services/ledger_service.go:104-142 | the net effect on an account does not depend on the order of entries |
| LedgerFacts.PostPermutation | services/ledger_service.go:104-149 | any permutation of the entries leaves the same balances |
| LedgerFacts.StoredNetDrift | services/ledger_service.go:110-122 | the stored entries of an account differ from the exact sum by at most half a unit per entry, and not at all on four decimals |
| LedgerFacts.SettledDrift | services/ledger_service.go:124-149 | an account touched k times ends within (k + 1) / 2 units of its old balance plus its stored entries, exactly there on four decimals |
| LedgerFacts.PostingImbalance | services/ledger_service.go:47-67 | stored debits and credits of a valid posting of n entries differ by at most n / 2 units, by nothing on four decimals |
| LedgerFacts.StoredBalancedIff | services/ledger_service.go:47-67 | a valid request is stored with equal debits and credits if and only if rounding adds the same to both sides; four-decimal amounts are the guard that always meets this |
| LedgerFacts.StoredDebitsMayExceedCredits | services/ledger_service.go:65-67 | the equality checked on exact amounts can fail on the stored ones: an accepted request of three entries stored as 2 against 1 |
| LedgerHistory.ApplyProper | models/ledger_entry.go:27 | posting, opening an account and a permitted deletion keep every entry pointing at a stored account |
| LedgerHistory.ReplayBalances | services/ledger_service.go:124-149 | after any legal history every balance is its opening plus its type-signed entries, up to the rounding bounds of its postings added up |
| LedgerHistory.ReplayBalancesExact | services/ledger_service.go:124-149 | on four-decimal amounts that equation is exact |
| LedgerHistory.ReplayImbalance | services/ledger_service.go:47-67 | over any history stored debits and credits drift apart by at most half a unit per off-grid entry |
| LedgerHistory.ReplayAmounts | services/ledger_service.go:51-54 | no legal history stores a negative amount |
| LedgerHistory.DoubleCounting | services/ledger_service.go:124-142 | summing the entries account by account or all at once gives the same total |
| LedgerHistory.TrialBalance | services/ledger_service.go:124-149 | assets and expenses have gained together exactly what liabilities, revenue and equity have |
| LedgerProtocol.StepKeepsInv | services/ledger_service.go:72-163 | every statement of every posting, fault or other client keeps: who read a row holds its lock and the row still reads the same |
| LedgerProtocol.CommitIsAtomic | services/ledger_service.go:97-160 | what a posting publishes at its commit is the atomic posting on the tables of that moment, and is acceptable there |
| LedgerProtocol.StepRefines | services/ledger_service.go:72-163 | every small step leaves tables and history alone or performs one allowed commit atomically on all tables |
| LedgerProtocol.ConcurrentPostingsAreSerial | services/ledger_service.go:72-163 | for any interleaving all tables, audit trail and outbox included, are those of running the commits one after another in commit order, and that history holds each committed posting, with its own event, once and no other posting |
| LedgerProtocol.SeriallyReplays | services/ledger_service.go:72-163 | on accounts and entries the serial run of commits is the replay of its ledger operations |
| LedgerProtocol.TrailSurvivesConcurrency | services/ledger_service.go:151-160 | with auditing on, at every point of every interleaving events and outbox rows are in bijection, and so are committed transactions and ledger events, other clients logging events of their own included |
| LedgerProtocol.NoLostUpdate | services/ledger_service.go:83-149 | for any interleaving every committed balance is its opening plus the type-signed committed entries (four-decimal amounts) |
| LedgerProtocol.ConcurrentDrift | services/ledger_service.go:83-149 | the same for any amounts, within the added rounding bounds |
| LedgerProtocol.HistoryIsExact | services/ledger_service.go:69-163 | the recorded history and the committed postings correspond one to one |
| LedgerProtocol.HeldBelowWanted | services/ledger_service.go:86-89 | a waiting posting holds only rows smaller than the one it waits for |
| LedgerProtocol.NoDeadlock | services/ledger_service.go:86-89 | while a posting is unfinished some posting can run its next statement |
| LedgerProtocol.RunsAreBounded | services/ledger_service.go:72-163 | the work left bounds the number of statements still to come, whatever else is interleaved |
| LedgerProtocol.EveryPostingCanFinish | services/ledger_service.go:72-163 | from every reachable configuration all postings can finish, those included that abort on a missing account |
| LedgerProtocol.OnlyUnpostableRequestsAbort | services/ledger_service.go:93-163 | over every schedule from the start, a posting that ends aborted without a fault of its own met a moment at which its request could not be posted on the committed books |
| LedgerProtocol.WaitingPostingCommits | services/ledger_service.go:72-163 | a waiting posting whose request is postable and whose rows nobody holds commits by its own statements alone, and what it leaves is the atomic posting on the tables it found |
| LedgerProtocol.AloneItEndsCommitted | services/ledger_service.go:72-163 | whenever only such a posting runs and it finishes, it has committed |
| LedgerTrail.PostingKeepsMatched | services/ledger_service.go:151-160 | a posting under a new transaction id and its event keep transactions and ledger events in bijection |
| Audit.LogEvent | services/audit_service.go:25-47 | event and outbox row are written together, or the call reports failure at the statement that failed |
| Audit.LoggedKeepsPairing | services/audit_service.go:25-47 | logging an event under a fresh id keeps the position-wise bijection of events and outbox rows |
| Accounts.CreateDefaultAccounts | services/account_service.go:19-33 | the three default rows are inserted under fresh ids, or the call fails at the failing insert or a taken key |
| Accounts.DefaultsBelongToUser | services/account_service.go:20-24 | exactly three new rows under the three ids drawn, the Cash, Revenue and Expenses accounts of the user in order with zero balance; every other row untouched |
| Accounts.AccountService.Create | services/account_service.go:57-83 | validation order, the default currency, the stored opening balance, and no change on any error |
| UserServices.UserService.Register | services/auth_service.go:34-104 | user, accounts and audit pair all appear or none, with the error of the first failing check |
| UserServices.UserService.Update | services/user_service.go:39-85 | role checks, the change and its audit pair in one transaction, the read-back after the commit |
| UserServices.UserService.Delete | services/user_service.go:88-112 | the cascade over accounts, records and tokens, refused when a ledger entry references an account of the user |
| AuthServices.AuthService.Login | services/auth_service.go:110-147 | tokens only for an active user with the right password; a failing user query or token insert is reported and changes nothing, a failing audit write leaves the sign-in in place |
| Outcomes.SignInIff | services/auth_service.go:110-135 | a sign-in succeeds exactly if neither query fails and the first user with that email is active and has that password; otherwise no table changes |
| Outcomes.SignInRefusals | services/auth_service.go:112-125 | what an unknown email, an inactive user and a wrong password are told |
| Outcomes.RegistrationIff | services/auth_service.go:35-61 | a registration succeeds exactly for viewer, analyst or no role, an unused email and no failing statement; the admin role is forbidden; an error changes nothing |
| Outcomes.RegisteredRows | services/auth_service.go:69-86 | the new active user with the hashed password and the role asked for, its three accounts, and nothing else |
| Outcomes.RegisteredUserSignsIn | services/auth_service.go:64-125 | after a registration, signing in with that email succeeds for the registered password and no other |
| Outcomes.UserUpdateIff | services/user_service.go:39-85 | an update succeeds exactly for an existing user and one of the three roles or none, and changes the named fields only, never password or email |
| Outcomes.DeactivatedIsLockedOut | services/token_service.go:103-105 | after an update that deactivates a user, that user can neither sign in nor refresh |
| Outcomes.UserDeletionIff | services/user_service.go:88-112 | a deletion succeeds exactly for an existing user none of whose accounts has an entry, and removes exactly that user with own accounts, records and tokens |
| Outcomes.AccountCreationIff | services/account_service.go:57-83 | a custom account is created exactly for a known type, a name, a free key and values that fit, with the opening balance and owner given |
| Outcomes.CallsLogTheirSubject | services/audit_service.go:88-115 | every call that changes the tables logs exactly one event, about its own subject and action, with its unpublished outbox row; creating an account logs none |
| Outcomes.RegistrationAndSignInLog | services/auth_service.go:90-143 | registration and sign-in log the user concerned under their own action |
| Outcomes.AdminRoleIs | middleware/rbac.go:20-51 | the admin guard accepts exactly the word admin, in any case |
| Outcomes.AdminCallsReachTheirService | routes/routes.go:130-160 | a guarded call reaches its service exactly for a genuine unexpired admin token, and does nothing otherwise |
| Outcomes.OpenRoutesReachTheirService | routes/routes.go:115-126 | registration, sign-in and refresh need no token, logout any genuine unexpired one; the signed tokens join those issued |
| TokenServices.TokenService.IssueTokenPair | services/token_service.go:30-70 | one new live row under a fresh family, the raw token and an access token of the configured lifetime; a refused insert stores nothing and hands out no token |
| TokenServices.TokenService.RefreshTokens | services/token_service.go:75-132 | lookup, reuse detection, expiry, user and activity checks in source order, then rotation by the three row updates |
| TokenServices.TokenService.RevokeAllUserTokens | services/token_service.go:135-146 | stamps the live rows of the user and changes no other field or row, or reports the failed update and changes nothing |
| TokenServices.TokenService.RevokeTokenFamily | services/token_service.go:150-161 | stamps the live rows of the family and changes no other field or row, or reports the failed update and changes nothing |
| TokenFacts.FamilyIsOneChain | services/token_service.go:117-129 | the stored rows of a family are one acyclic chain of links with one owner; all but the last are revoked and the last is not replaced |
| TokenFacts.CollectRemovesPrefix | services/outbox_publisher.go:100-107 | expiry never falls along a chain, so the cleanup removes with a row every row issued before it |
| TokenFacts.CollectKeeps | services/outbox_publisher.go:100-107 | the cleanup keeps the chain shape |
| TokenFacts.CleanupIsHarmless | services/outbox_publisher.go:100-107 | the cleanup changes neither which token a refresh accepts, now or later, nor any user's live tokens |
| TokenFacts.CollectIsExact | services/outbox_publisher.go:100-107 | the cleanup removes exactly the rows that are both past their expiry and revoked |
| TokenFacts.LifetimesAre | services/token_service.go:32-56 | configured minutes and days, or fifteen minutes and seven days, to the nanosecond |
| TokenFacts.OwnerDropKeeps | models/refresh_token.go:18 | the cascade of a user deletion keeps the chain shape |
| TokenFacts.RevokeKeeps | services/token_service.go:134-161 | revoking any rows keeps the chain shape |
| TokenFacts.IssueKeeps | services/token_service.go:51-67 | issuing keeps the chain shape |
| TokenFacts.RotationKeeps | services/token_service.go:107-129 | rotation appends one row to the chain and keeps its shape |
| TokenFacts.RefreshAccepted | services/token_service.go:75-132 | a refresh succeeds exactly for a stored, live, unexpired token of an existing active user; then the presented row is revoked and linked to one new row of its family and nothing else changes |
| TokenFacts.RefreshConserves | services/token_service.go:107-129 | a successful refresh leaves the number of live tokens of every user unchanged |
| Idempotency.CleanKeepsLive | services/outbox_publisher.go:90-97 | the cleanup never removes or alters a row that a lookup, now or later, would match |
| Idempotency.CleanIsExact | services/outbox_publisher.go:90-97 | the cleanup removes exactly the rows past their expiry |
| Idempotency.OtherRequestsPassThrough | middleware/idempotency.go:27-38 | any other verb, and any request without a key, gets the handler's own state and reply, and the key table is left alone |
| Idempotency.UnreadableIsRefused | middleware/idempotency.go:43-48 | a keyed POST, PUT or DELETE whose body cannot be read is a 400 and changes nothing |
| Idempotency.CapturedReply | middleware/idempotency.go:73-118 | the captured reply is the status set, 200 if none, and the chunks in order |
| Idempotency.StoredRow | middleware/idempotency.go:83-99 | the row a first request leaves: user, body hash, code, body and an expiry 24 hours later; a failing insert leaves none and hides it |
| Idempotency.KeyLivesADay | models/idempotency_key.go:23-29 | a stored key answers for exactly 24 hours |
| Idempotency.ReplayIsErasure | middleware/idempotency.go:54-99 | dropping every request that hits a live key leaves the same final state and key table, and that state is the one the bare handler reaches on the rest |
| Idempotency.RowStays | middleware/idempotency.go:56-71 | while its row lives a key leads to the same row through every continuation |
| Idempotency.LiveKeyShields | middleware/idempotency.go:56-71 | under a live key only unreadable requests, which the handler does not see, and requests whose lookup query fails are not answered from the table |
| Idempotency.ExecutedOnce | middleware/idempotency.go:54-99 | after the first execution under an unused key, for 24 hours and for every request whose lookup works, the same body gets the first reply, another body a 422, and the handler is not run again (POST, PUT and DELETE with a key) |
| Idempotency.RetryProtectedIff | middleware/idempotency.go:56-99 | whatever other requests and cleanups lie between, a retry within 24 hours is answered from the table if and only if its lookup works and either the key had no row, expired ones included, and the row was stored, or an older row is still live |
| Idempotency.StaleRowRunsTwice | middleware/idempotency.go:83-99 | the unprotected case happens: with an expired row still stored the handler runs for the request and again for its retry |
| Idempotency.FailedLookupRunsTwice | middleware/idempotency.go:56-58 | the other unprotected case: a retry whose lookup query fails runs the handler again under a live key, and the conflicting insert is not reported |
| Idempotency.KeyIsGlobal | middleware/idempotency.go:56 | the reply to a hit does not depend on the user or the path |
| Idempotency.Middleware.RunHandler | middleware/idempotency.go:73-81 | the capture holds exactly the status and the concatenated body the handler wrote, 200 if it set no status |
| Idempotency.Middleware.Handle | middleware/idempotency.go:25-101 | the middleware call equals the specified service of one request, key table and failing queries included |
| Outbox.Batch | services/outbox_publisher.go:49-56 | the indices of the oldest unpublished rows in order, fifty of them or all there are |
| Outbox.MarkAll | services/outbox_publisher.go:64-82 | exactly the rows of the batch whose update does not fail become published |
| Outbox.BatchIs | services/outbox_publisher.go:50-53 | an entry is fetched exactly if it is unpublished and fewer than fifty unpublished ones were created before it |
| Outbox.DeliveredInOrder | services/outbox_publisher.go:64-70 | every fetched entry is handed over once, in creation order |
| Outbox.OutboxPublisher.Fetch | services/outbox_publisher.go:46-56 | the query as a loop returns that batch |
| Outbox.OutboxPublisher.MarkEntries | services/outbox_publisher.go:64-82 | the loop delivers every fetched entry once, in order, and skips failed marks |
| Outbox.OutboxPublisher.ProcessOutbox | services/outbox_publisher.go:46-87 | one round: nothing on a failed fetch or an empty batch, otherwise delivery, marks and both cleanups, each of which may fail on its own |
| Outbox.PollMarks | services/outbox_publisher.go:49-82 | of the markable rows ahead of a position one poll publishes all, or at least fifty minus the failing ones |
| Outbox.Progress | services/outbox_publisher.go:49-82 | a markable entry with at most k < 50 failing ones ahead is published once polls times (50 - k) exceeds the markable ones ahead, whatever is added later |
| Outbox.PublishedWithin | services/outbox_publisher.go:49-82 | hence within floor(q / (50 - k)) + 1 successful fetches |
| Outbox.BacklogDrains | services/outbox_publisher.go:49-82 | without failures a backlog of m is empty exactly from ceil(m / 50) polls on |
| Outbox.DeliveryAccounting | services/outbox_publisher.go:64-82 | at every point each entry was delivered once per failed mark, plus once if it is published, and nothing but stored entries was delivered |
| Outbox.NoRedelivery | services/outbox_publisher.go:50-82 | a published entry is never delivered again |
| RateLimiter.EvictionIsInvisible | middleware/rate_limiter.go:41-77 | on every sequence of requests and sweeps the evicting table takes the decisions of a table that never forgets |
| RateLimiter.CreditIsTightestWindow | middleware/rate_limiter.go:61-77 | a bucket that is not full holds exactly what some window since an admitted request leaves |
| RateLimiter.CreditWithinWindows | middleware/rate_limiter.go:61-77 | no window since an admitted request leaves less than the credit |
| RateLimiter.AllowIffConforms | middleware/rate_limiter.go:86 | a request is admitted if and only if it keeps every such window within the burst plus the rate |
| RateLimiter.LimiterIsExact | middleware/rate_limiter.go:32-93 | from an empty table, across evictions, every decision equals that of a reference limiter that logs all admitted requests |
| RateLimiter.LogIsTimes | middleware/rate_limiter.go:61-93 | the log of the reference limiter is exactly the admitted requests, as read off the decisions |
| RateLimiter.WindowsAreBounded | middleware/rate_limiter.go:61-93 | over every run of the evicting table, every window of its decisions admits at most 100 requests of an address plus one per 0.6 s of its length, across evictions |
| RateLimiter.FreshAddressGetsBurst | middleware/rate_limiter.go:61-77 | an unknown address gets exactly 100 requests at one instant, and the next one exactly when 0.6 s have passed |
| RateLimiter.EvictIsExact | middleware/rate_limiter.go:32-55 | a sweep forgets exactly the addresses idle for more than ten minutes |
| RateLimiter.RequestIsLocal | middleware/rate_limiter.go:61-77 | a request touches its own address only and notes its time |
| RateLimiter.Limiter.TakeOne | middleware/rate_limiter.go:86 | one call on the bucket object takes the specified decision and leaves a refused bucket untouched |
| RateLimiter.RateLimiterTable.GetLimiter | middleware/rate_limiter.go:61-77 | load-or-store: the stored bucket with a refreshed time stamp, or a new full one; other addresses untouched |
| RateLimiter.RateLimiterTable.Handle | middleware/rate_limiter.go:82-93 | one request through the shared objects equals the specified table step |
| RateLimiter.RateLimiterTable.EvictStale | middleware/rate_limiter.go:47-55 | the eviction loop removes exactly the entries idle for more than ten minutes, in any map order |
| RecordServices.RecordService.Prepare | services/record_service.go:37-58 | the checks in source order, rewriting the currency on the way, give the row to insert or the first complaint |
| RecordServices.RecordService.Rewrite | services/record_service.go:157-201 | the checks on an update map, rewriting amount and currency, give a map that does to every row what the original asks for, or the first complaint |
| RecordServices.RecordService.Create | services/record_service.go:36-81 | checks in source order, the normalised row, the audit pair, nothing on any error |
| RecordServices.RecordService.Update | services/record_service.go:150-227 | visible rows only, checked changes, the audit pair, the read-back after the commit |
| RecordServices.RecordService.Delete | services/record_service.go:231-256 | the deletion mark and its audit pair, visible rows only |
| Outcomes.RecordCreationIff | services/record_service.go:36-81 | a record is created exactly for a known type, positive amount, known currency or none, visible category, date and existing owner, and holds what was asked for |
| Outcomes.RecordUpdateIff | services/record_service.go:150-227 | an update of a visible row changes the named fields and no others, and refuses every unacceptable value |
| Outcomes.RecordDeletionIff | services/record_service.go:231-256 | a deletion marks a visible row and changes nothing else |
| Outcomes.AcceptedRecordAdds | services/dashboard_service.go:27-119 | an accepted record adds its amount to income or expense as its type says, in the lines of its currency, month and category, and nothing elsewhere |
| Dashboard.AggregateUpdate | services/dashboard_service.go:27-35 | setting a row changes every figure by the contribution of the new row minus that of the old one |
| Dashboard.ContributionIs | services/dashboard_service.go:27-119 | which rows a figure counts and with what, by type, currency, month and category; deleted rows count nowhere |
| Dashboard.GroupsAre | services/dashboard_service.go:34-117 | the lines of each dashboard are those of the records that are not deleted |
| Dashboard.RankOrders | services/dashboard_service.go:73-118 | months in calendar order, categories by falling total |
| Dashboard.NetIs | services/dashboard_service.go:42-89 | net is income minus expense, in the summary and in the trends |
| Dashboard.DashboardsAgree | services/dashboard_service.go:27-123 | for every table and currency the monthly rows and the category rows each add up to the summary line in income, expense, total and count |
| Dashboard.TotalIsIncomePlusExpense | services/dashboard_service.go:108-119 | every group's total is its income plus its expense |
| Dashboard.DashboardService.GetSummary | services/dashboard_service.go:17-51 | exactly one line per currency of a visible record, holding that currency's income, expense, difference and record count |
| Dashboard.DashboardService.GetTrends | services/dashboard_service.go:55-92 | every currency and month of a visible record once, oldest month first, each with its exact sums and their difference |
| Dashboard.DashboardService.GetCategoryBreakdown | services/dashboard_service.go:96-138 | every currency and category of a visible record once, greatest total first, each with its exact sums and count |
| Dashboard.ReturnedLinesAgree | services/dashboard_service.go:41-137 | what the three calls return on one table agrees: for every figure the trend lines and the category lines of a currency each add up to its summary line, and no currency without one has other lines |
| BackendLedger.ActionIsHistory | routes/routes.go:112-166 | every call, clock tick and publisher round acts on the books as a legal piece of ledger history |
| BackendLedger.BooksAreHistory | routes/routes.go:112-166 | the books after any run are the replay of its legal history |
| BackendLedger.TrialBalanceHolds | services/ledger_service.go:124-149 | trial balance in every reachable state, over registration, custom accounts with opening balances, postings, failed postings and user deletion |
| BackendLedger.AmountsStayNonNegative | services/ledger_service.go:51-54 | no backend run stores a negative ledger amount |
| BackendLedger.BalancesWithinDrift | services/ledger_service.go:47-149 | over any run every balance stays within the added rounding bounds of its opening plus its entries |
| BackendLedger.EntriesKeepTheirAccounts | models/ledger_entry.go:27 | an account with entries survives every run |
| BackendTrail.AllOrNothing | services/audit_service.go:25-47 | whichever statement of an admin call fails, the tables are as before if and only if an error is reported, a failed read-back after a committed update excepted |
| BackendTrail.StepLogs | services/audit_service.go:25-47 | every action but a publisher round logs nothing or one event under a fresh id with its outbox row |
| BackendTrail.TrailIsPaired | models/outbox_entry.go:19 | in every reachable state audit events and outbox rows are in bijection, in creation order |
| BackendTrail.LedgerIsTraced | services/ledger_service.go:151-160 | in every reachable state ledger transaction ids and ledger audit events are in bijection |
| BackendTrail.OutboxIsHistory | services/outbox_publisher.go:46-87 | the outbox after a backend run is what the publisher model computes from the projected events |
| Outcomes.PublisherRoundIs | services/outbox_publisher.go:46-107 | a round marks the fetched entries but for the failing ones and drops the expired revoked tokens; with nothing to publish it does neither |
| BackendTrail.OnlyCommittedEventsAreDelivered | services/outbox_publisher.go:64-82 | from any start whose accounts balance, over every backend run, the delivery accounts balance and only committed audit events are ever delivered |
| BackendTrail.PublishedIsNotRedelivered | services/outbox_publisher.go:50-82 | an event published at some point of a backend run is not delivered again by its rest |
| BackendTrail.EventIsPublishedWithin | services/outbox_publisher.go:49-82 | over every backend run with at most k < 50 unmarkable entries ahead, an entry with q markable ones ahead is published within floor(q / (50 - k)) + 1 successful rounds |
| BackendTokens.StepKeepsTokens | services/token_service.go:30-161 | every action of the backend keeps the token invariant, foreign keys to users included |
| BackendTokens.FamiliesStayChains | services/token_service.go:117-129 | in every run every family is one chain whose last row alone can be live |
| BackendTokens.ReuseKillsFamily | services/token_service.go:86-91 | presenting a stored revoked token is refused and leaves other families untouched, and in no continuation is any token of its family, stored now or later, accepted |
| BackendTokens.SingleRedemption | services/token_service.go:113-129 | over any run each refresh token is accepted at most once |
| BackendTokens.RowIsKept | services/outbox_publisher.go:100-107 | a stored token row stays stored, under its hash, family and expiry, in every continuation whose clock has not passed its expiry and that never deletes its owner |
| BackendTokens.ReplayWithinLifetimeKillsFamily | services/token_service.go:86-91 | a token accepted once and presented again at any time before its expiry, whatever lies between short of deleting its owner, gets the reuse error and leaves its family dead |
| BackendTokens.FreshTokenIsAdmitted | utils/jwt.go:38-42 | the access token of a sign-in is admitted, in its role, until less than a second before its lifetime ends, whatever happens in between |
| BackendTokens.LiveTokenIsAccepted | services/token_service.go:79-105 | for an active owner a stored token is accepted exactly while it is neither revoked nor past its expiry |
| BackendTokens.SignInStoresToken | services/token_service.go:58-67 | a sign-in stores one live row for the returned token, under a family of its own, and touches no other |
| BackendTokens.LiveWithinSignIns | services/token_service.go:135-146 | a user never holds more live refresh tokens than successful sign-ins since the last logout |
| BackendRoles.StepSigns | utils/jwt.go:27-47 | a step signs tokens only for an existing active user in the role the table shows, with an expiry within one lifetime |
| BackendRoles.BoundedStaleness | middleware/auth.go:37-51 | a request admitted at time t under role r was preceded, later than t minus the access lifetime, by a moment at which the user was active and held r |
| BackendRoles.StaleTokenIsRefused | middleware/auth.go:37-51 | deactivation, deletion or a role change takes hold within one access lifetime |
| BackendRoles.RegisterMakesNoAdmin | services/auth_service.go:43-49 | self-registration gives nobody the admin role |
| BackendRoles.StepPower | routes/routes.go:132 | new admin rights come from the update call of an admitted admin only |
| BackendRoles.AdminsAreRooted | services/user_service.go:50-62 | every admin user and every admin access token traces back through a chain of promotions to an initial admin |
| BackendRoles.NoAdminFromNothing | services/auth_service.go:43-49 | without an admin user or token at the start no run produces one |
| BackendDashboard.CallMovesFigures | services/record_service.go:36-256 | every call moves every dashboard figure by exactly the records it adds, changes, hides or cascades away |
| BackendDashboard.RecordsStayOk | services/record_service.go:36-256 | over every run the record table holds only the four currencies in capitals and no negative amount |
| BackendCached.CachedRunIsBackendRun | routes/routes.go:112-122 | every state reached through authentication and idempotency middleware is reached by the backend alone on the actions performed |
| BackendCached.UnkeyedRequestsAct | middleware/idempotency.go:27-38 | outside /api, under other verbs and without a key, every request that gets in acts, and the key table is left alone |
| BackendCached.RoundCleansKeys | services/outbox_publisher.go:58-97 | a publisher round that finds entries drops exactly the expired keys, unless that statement fails |
| BackendCached.RefusalsAndReplaysAreErasures | middleware/idempotency.go:54-99 | dropping every refused, replayed, mismatched or unreadable request leaves the same world and the same key table |
| BackendCached.ExecutesOnce | middleware/idempotency.go:54-99 | a keyed request executes once, plus once for every later admissible attempt whose lookup query fails, over any run that precedes without executing under the key and any that follows within 24 hours |
| BackendCached.RetriesGetFirstReply | middleware/idempotency.go:58-71 | within 24 hours every admissible retry whose lookup works gets the first reply, or a 422 for another body, and changes nothing |
| BackendCached.RetriesAreInvisible | middleware/idempotency.go:54-99 | as long as no lookup fails, dropping all other attempts under the key, refused or not, with the same or with other bodies, leaves the same world and key table, whatever other requests, time and publisher rounds lie between |
| BackendCached.RefusedThenRetried | routes/routes.go:121-122 | an attempt under an expired token does not use up the key: the retry with a valid token executes |
| BackendSafety.EveryReachableWorldIsSafe | routes/routes.go:112-166 | from any safe start, whoever its admins are, every run keeps all invariants together: entry references, token chains, both bijections, row owners, and on four decimals equal stored debits and credits |
| BackendSafety.SeededWorldPosts | services/auth_service.go:110-147 | a concrete safe start with one admin, and a run in which that admin signs in, opens two accounts and posts: entries, balances and the ledger event are there |

## Left out

- HTTP, gin routing, JSON binding, handlers, logging, CORS, request ids, configuration and start-up:
  input and output only. Route guards appear as conditions of the steps.
- SQL and the object mapper: tables are maps and sequences, a transaction is snapshot and restore,
  `FOR UPDATE` is one exclusive lock per row that reads the latest committed row.
- SHA-256, bcrypt, JWT signing and random generation: abstract. Failures of theirs (an empty signing
  secret, a password beyond the bcrypt limit) are not modelled.
- Services constructed without a token, account or audit service: only the wiring of
  `routes/routes.go:63-76` is modelled, except that a ledger without auditing is.
- TokenServices.TokenService.RefreshTokens: one atomic step whose statements succeed; the code runs them
  outside a transaction and ignores some of their errors, so interleavings inside the call and failing
  statements are not covered.
- Idempotency.Middleware.Handle: one request at a time; lookup and store are separate statements with
  no lock, so two simultaneous first requests under one key are not covered.
- LedgerProtocol.NoLostUpdate: requires amounts with at most four decimals; LedgerProtocol.ConcurrentDrift
  states the bound for the others.
- RateLimiter.RateLimiterTable.Handle: requests and sweeps are atomic steps over an integer credit; the
  floating-point arithmetic and locks of the bucket library are not part of this model.
- Clocks that run backwards, and the width of identifiers and time stamps.
- Column lengths other than the three letters of a currency code; upper-casing, lower-casing and
  trimming beyond ASCII.
- Update keys other than name, role and is_active for users and type, amount, currency, category, date
  and notes for records.
- Orders the database chooses itself: ties in creation time, equal totals or equal months.
- A time zone for calendar dates: a record's month is that of its stored date.
- Read-only queries without a hard property: user and record lists with filters and pages,
  GetTransactions, GetAccountEntries, QueryEvents, the health check.
- Balance per currency, idempotency per user, positivity of stored amounts below 0.0001, audit events for
  accounts and tokens: the code does not provide them.
