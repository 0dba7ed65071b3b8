# Edge queue, audit query, sessions and clean-up scripts: a verified model

This project models the parts of the Yannis sales platform in which an order, a session or a
stock figure could silently go wrong, and proves what they keep. Each component has its own
modules; `dafny verify dfyconfig.toml` covers all of them.

**The edge order queue** (`EdgeTypes`, `QueueProtocol`, `QueueLadder`, `QueueNoLoss`,
`QueueBudget`, `EdgeQueue`, `QueueRefinement`). A submission goes to the API, then to QStash, then
to a Redis list; a cron drains that list through a processing list. `QueueProtocol` is a step
machine over any number of submissions, QStash messages and overlapping drains, in which every
actor can die at every `await`; `QueueLadder` says what a submission is answered and when it is
handed on. `EdgeQueue` is the drain in place, as a class over three lists, and `QueueRefinement`
shows that a whole in-place drain, with whatever is pushed meanwhile, is a run of the step machine.
The cart queue is the same machine with its own batch size and its own replies.

**The audit log query** (`AuditTopN`, `AuditQuery`, `AuditRows`, `AuditLimits`, `AuditCount`). A
sort over a union of tables is rewritten into sorted arms that keep limit + offset rows each.
`ORDER BY ... LIMIT` is a relation here, so a statement can hold however the database breaks ties,
or for any fixed way of breaking them. `AuditQuery` compiles the hand-numbered placeholders, arm by
arm, and gives the compiled query a meaning of its own; `AuditRows` says which rows it shows and
`AuditCount` what its cached total depends on.

**Session state** (`SessionTypes`, `SessionStore`, `SessionLaws`, `SessionScope`, `ScopeLaws`,
`BundleCaches`). Sessions are kept in Redis over a database; a session carries a company and branch
scope through login, mirror mode and the switchers; role and permissions pass through two stacked
60-second caches, with requests, writes and their invalidations interleaved step by step.

**Supporting algorithms.** Merging duplicate products (`ProductInventory`, `ProductMerge`,
`ProductLaws`, `ProductOrder`), the two rate limiters (`EdgeRateLimit`, `AssistantRateLimit`), the
two escapers (`Escapers`, `ScriptJson`), the page tree (`PageTree`), and the clean-up of duplicate
permission requests (`DuplicateRequests`). `Common` holds what they share.

## Where the code differs from what it says

- The comment at `apps/edge-worker/src/index.ts:961-963` says that the `lrem` of a drained element
  cannot miss. When the Redis client hands back a parsed object, `raw` and `queued` are one
  object, so the argument of the later `lrem` carries the bumped attempts and does not match the
  stored element (the client is taken to serialise its argument when called). Nothing is lost even
  when text and parsed elements mix (`NoLoss`), but a parsed order is never discharged
  (`ParsedNeverDischarged`). Each parsed element costs at most six more calls and one more copy
  (`RetryBudget`, `CopiesAccount`, for clients of any kind). Six calls per order and per crash
  (`SixEachIff`), an empty queue after enough failing drains (`EmptiesInTimeIff`) and first in,
  first out across drains (`StaysFifoIff`) hold exactly when the client never returns parsed
  objects; each has its failing input. The reclaim pass empties `processing` either way
  (`ReclaimEmpties`).
- "Retries at 1-per-minute cron" (`apps/edge-worker/src/index.ts:57`): the loop pops again what it
  has just requeued. `FailingDrain` says exactly when an order is tried at most once in a drain,
  `AllDeadLettered` how many drains it takes to empty a queue.
- An order accepted through QStash can be lost exactly when QStash is configured without Redis or
  without the callback URL (`LosesNothingIff`).
- The audit query has no tie-break column: pages are repeatable exactly when no two different rows
  share a sort key (`RepeatableIff`). With any fixed tie-break the rewritten query gives the page
  that sorting everything gives and its pages tile, ties or not (`SamePage`, `CompiledPagesTile`).
  The mirror-session arm sorts by one key inside and another outside, so the rewriting is right for
  every database exactly when that arm is absent (`MirrorPushdownIff`). The count cache key lacks
  the ids of the company's branches: two requests with one key are owed one total exactly when those
  ids agree or play no part (`CountKeyIff`); `TotalsAgreeIff` says what a total depends on.
- The session store refines one map, except in three families, characterised by what the next reads
  return: writing through a token that is no longer live, or without a lifetime (`UpdateReadsIff`),
  a refill that writes Redis after the session changed (`RefillRaceIff`), and Redis coming back with
  old entries (`WarmRecoveryIff`). `UpdateRevives`, `RefillRevives` and `RecoveryRevives` are inputs.
  Killing all sessions of a user misses one exactly when its database expiry has passed while Redis
  keeps it alive (`DeleteAllReachesIff`).
- Leaving mirror mode "puts them back exactly where they were"
  (`apps/api/src/auth/auth.service.ts:586-589`) holds for company and selection; the branch comes
  back exactly when the stop's own question says so (`MirrorRoundTrip`). The rule of
  `apps/api/src/common/authz.ts:70-86` is asked with different facts: login passes no permissions,
  mirror start and stop leave out the org-wide-head flag, the switcher passes both. So a head by
  flag alone lands on "All Branches" and loses it (`LoginBranchBackIff`, `SwitchBranchLostIff`, with
  the input `HeadLosesAllBranches`).
- A request that read the session before a mirror started and writes it afterwards ends the mirror
  without a stop; nothing else does (`MirrorKept`, with the input `OvertakenSwitchEscapes`).
- A branch switch leaves the company exactly when the branch it looks up is not in the database and
  some of the pick survives (`SwitchScopeIff`, with the input `UnknownPickEscapes`).
- "60 s when every write invalidates" is not what the code does: the invalidation is not awaited
  and a load may overlap it. The bound is 60 s plus the gap between commit and invalidation plus
  the time of one request (`InvalidatedBound`), the gap counts in full (`GapReached`), and after an
  invalidated write the bound holds on every continuation exactly when no request of that user that
  may still store holds something else (`InvalidationIff`). `OverlapOutlivesInvalidation` ends with
  an accepted cookie almost two minutes older than the invalidated write.
- Which of a group's duplicate offer templates survive depends on the order of the merges exactly
  when two of the group have a live template under a name that the kept product lacks
  (`AnyOrderIff`, and `TemplateOrderIff` for two given orders). A merge fails, and the whole
  transaction with it, exactly in the cases of `MergeFailsIff`, a group's in those of
  `GroupFailsIff`; only one of them depends on the order (`OneOrderOnlyIff`, with the input
  `OrderDecides`). The table list of the script follows columns named `product_id` only
  (`packages/shared/scripts/dedupe-products.ts:177-197`), so rows of `product_bundle_components` are
  never repointed and a current duplicate that is a bundle or a component stops the whole
  transaction (`BundledFails`).
- Two user-creation requests share a key also when the email of one reads `phone:` followed by the
  phone of the other (`SameUserKeyIff`).

## Model

| member | source | states |
|---|---|---|
| QueueNoLoss.NoLoss | apps/edge-worker/src/index.ts:892-1011 | in every reachable state, with drains overlapping and anyone dying at any await, whatever was answered with success is acknowledged by the API, dead-lettered, with QStash, pending or processing |
| QueueNoLoss.RemovalWitness | apps/edge-worker/src/index.ts:963-1007 | a drain about to remove an order it popped with `a` attempts leaves it placed elsewhere or queued with strictly more attempts |
| QueueNoLoss.LosesNothingIff | apps/edge-worker/src/index.ts:748-782 | no accepted submission can be lost exactly when QStash is off, or Redis and the callback URL are both configured |
| QueueNoLoss.GiveUpLoses | apps/edge-worker/src/index.ts:841-886 | without Redis or the callback URL an exhausted QStash message is gone although its order was answered with success |
| QueueNoLoss.PayOnlineNeverBuffered | apps/edge-worker/src/index.ts:3919-3943 | a PAY_ONLINE order never reaches QStash, the queue or the dead-letter list |
| QueueNoLoss.ParsedNeverDischarged | apps/edge-worker/src/index.ts:961-985 | when elements come back parsed, a buffered order stays queued with 0 attempts in every later state |
| QueueNoLoss.InvKept | apps/edge-worker/src/index.ts:942-1011 | the copy-counting invariant behind no-loss holds after every step of every actor |
| QueueNoLoss.SafeKept | apps/edge-worker/src/index.ts:980-1007 | a payload that is safe from some attempt level on stays so, even when the copy that made it safe is removed |
| QueueBudget.RetryBudget | apps/edge-worker/src/index.ts:980-1007 | with one drain at a time and any client, in every reachable state: API calls plus attempts left on the pending list never exceed 6 per buffered order, crash and parsed element, between drains those in `processing` included; queued orders have 0 to 5 attempts throughout |
| QueueBudget.CopiesAccount | apps/edge-worker/src/index.ts:1001-1007 | in every reachable state each buffered order is queued or settled; extra copies never outnumber crashes and parsed elements, with one more at most while a drain is between record and removal |
| QueueBudget.ReclaimEmpties | apps/edge-worker/src/index.ts:917-928 | whatever the client returns, the reclaim pass never reaches its 80 moves and ends exactly when `processing` is empty, which never holds more than one batch |
| QueueBudget.SixEachIff | apps/edge-worker/src/index.ts:936-1007 | six calls per order and per crash, and no spare copies, on every run without overlapping drains exactly when the client never returns parsed objects or there is no Redis |
| QueueBudget.ParsedBreaksBound | apps/edge-worker/src/index.ts:961-985 | one parsed order, delivered without a crash, already breaks both |
| QueueBudget.KeptRemoving | apps/edge-worker/src/index.ts:963-965 | the accounts survive a removal that hits, misses, or takes another copy |
| EdgeQueue.RedisQueue.BufferToRedis | apps/edge-worker/src/index.ts:892-910 | success exactly when Redis is there and the push went through, with a fresh record at the tail; otherwise nothing changes |
| EdgeQueue.RedisQueue.DeadLetter | apps/edge-worker/src/index.ts:841-886 | a decoded exhausted message is dead-lettered with 6 attempts, anything else changes nothing |
| EdgeQueue.RedisQueue.ReclaimProcessing | apps/edge-worker/src/index.ts:917-928 | up to 80 elements go back to the pending tail in order |
| EdgeQueue.RedisQueue.DrainRedisQueue | apps/edge-worker/src/index.ts:942-1011 | lists and counters after the in-place loop are those of the drain specification, whatever arrives meanwhile |
| EdgeQueue.IterationIs | apps/edge-worker/src/index.ts:953-1007 | one pass of the loop, spelled out: where the popped element goes, with how many attempts and which stamp, what leaves `processing`, and the counters |
| EdgeQueue.DrainAccounting | apps/edge-worker/src/index.ts:949-1010 | pending after + drained + dead-lettered = pending before + arrivals; one call at most per iteration |
| EdgeQueue.CallAccounting | apps/edge-worker/src/index.ts:942-1011 | for a whole call, reclaim included: pending after + drained + dead-lettered = pending + in flight + arrivals, exactly when no more than 80 were in flight |
| EdgeQueue.ProcessingClearedIff | apps/edge-worker/src/index.ts:936-965 | a drain leaves `processing` empty exactly when every order popped came back as text |
| EdgeQueue.DrainIsFifo | apps/edge-worker/src/index.ts:930-934 | through a drain with arrivals, corrupt text and equal stamps included, orders with equal attempts stay in arrival order |
| EdgeQueue.DrainsAreFifo | apps/edge-worker/src/index.ts:930-1007 | the same over any number of successive drains of a text client, as the next drain finds the list after its reclaim |
| EdgeQueue.StaysFifoIff | apps/edge-worker/src/index.ts:917-934 | orders stay in arrival order across drains on every script exactly when the client returns text |
| EdgeQueue.ParsedOvertaken | apps/edge-worker/src/index.ts:917-928 | the failing script: the reclaim puts a delivered order behind a later one |
| EdgeQueue.PoppedInTurn | apps/edge-worker/src/index.ts:953-960 | an order with k ahead of it is the one popped at iteration k + 1 |
| EdgeQueue.FailingDrain | apps/edge-worker/src/index.ts:953-1007 | whatever the client returns, a drain against a failing API makes min(batch, attempts left plus corrupt texts) iterations, a call for each attempt used, and leaves all but the dead letters pending; nothing is popped twice exactly when the iterations do not outnumber the elements |
| EdgeQueue.AllDeadLettered | apps/edge-worker/src/index.ts:942-1011 | with a text client, corrupt text and crash remnants included, both lists are empty after k failing drains exactly when k times the batch covers what was outstanding, with everything dead-lettered |
| EdgeQueue.EmptiesInTimeIff | apps/edge-worker/src/index.ts:942-1011 | that holds on every queue and script exactly when the client returns text |
| EdgeQueue.ParsedNotEmptied | apps/edge-worker/src/index.ts:961-998 | the failing script: a dead-lettered order is still in `processing` |
| QueueRefinement.IterationIsRun | apps/edge-worker/src/index.ts:953-1007 | one in-place iteration, with any pushes during its call, is a run of the protocol with the same lists |
| QueueRefinement.DrainIsRun | apps/edge-worker/src/index.ts:942-1011 | a whole in-place drain, reclaim and any pushes before pops and during calls included, is a run of the protocol with the same lists; with batch 30 it is the cart drain of lines 1034-1092 |
| QueueRefinement.ArrivalsAreRun | apps/edge-worker/src/index.ts:892-910 | any entries that may be pushed are pushed by submissions interleaved at that point |
| QueueProtocol.SubmissionIsRun | apps/edge-worker/src/index.ts:3867-3950 | a submission whose API call fails and which QStash does not take ends at the pending tail, answered with success |
| QueueLadder.ArrivalOutcome | apps/edge-worker/src/index.ts:3784-3830 | a submission is forwarded exactly if it parses, is valid and, for orders, leaves the honeypot empty and is within the rate limit; each other case has its reply, and nothing is buffered |
| QueueLadder.ApiOutcome | apps/edge-worker/src/index.ts:3867-3974 | a failed call goes on to QStash exactly if the status is 500 or more, or 401 with the edge-auth message, and the order is not paid online; otherwise the answer is the API's own status, 503 for a payment, 500 for carts, and nothing is buffered |
| QueueLadder.LadderOutcome | apps/edge-worker/src/index.ts:3867-3974 | from a failed API call on, in every run: a request handed on is answered with success exactly when QStash or Redis takes it, else by its last word; any other is answered at once, for good, and takes no further step |
| QueueLadder.PublishOutcome | apps/edge-worker/src/index.ts:3931-3940 | what QStash takes is with QStash, with four tries, and answered with success; else the request goes on to Redis |
| QueueLadder.PushOutcome | apps/edge-worker/src/index.ts:3942-3968 | what Redis takes is a fresh record at the pending tail and answered with success; else a timed-out order is told to wait, others 503, carts 500 |
| QueueLadder.AnsweredIsFinal | apps/edge-worker/src/index.ts:3867-3974 | an answered request keeps its answer and takes no further step in any run |
| QueueLadder.TakenIsHeld | apps/edge-worker/src/index.ts:3931-3950 | whatever QStash or Redis took in any run is answered with success and held in its end |
| QueueLadder.GiveUpOutcome | apps/edge-worker/src/index.ts:841-886 | an exhausted message is dead-lettered with six attempts and this moment's stamps, exactly if callback, Redis, decoding and push work |
| QueueLadder.FourReplays | apps/edge-worker/src/index.ts:762-776 | from the publish on, in every run: QStash may give up exactly after four failed replays (one try and three retries) |
| QueueLadder.DrainSize | apps/edge-worker/src/index.ts:917-960 | in every run a drain makes at most 80 moves and 20 pops, or 30 of carts, and ends exactly then or on an empty list |
| AuditTopN.Pushdown | apps/api/src/audit/audit.service.ts:538-675 | sorting the union of the arms' top rows answers the query over the whole union, however ties are broken |
| AuditTopN.KeysDetermined | apps/api/src/audit/audit.service.ts:672-675 | the sequence of sort keys on a page does not depend on ties |
| AuditTopN.RepeatableIff | apps/api/src/audit/audit.service.ts:672-675 | answers are repeatable exactly when no two different rows share a sort key |
| AuditTopN.PagesTile | apps/api/src/audit/audit.service.ts:672-675 | under any sort key that tells the rows apart, a page is its slice of the sorted list |
| AuditTopN.PagesConcat | apps/api/src/audit/audit.service.ts:672-675 | consecutive pages, one after the other, are the sorted list up to where they reach: no gap, no repeat |
| AuditTopN.SameRows | apps/api/src/audit/audit.service.ts:538-675 | with any fixed tie-break the rewritten query gives the very rows that sorting the whole union gives, ties or not |
| AuditTopN.RankedIsTop | apps/api/src/audit/audit.service.ts:672-675 | an answer with a fixed tie-break is an answer of the query as written |
| AuditQuery.SelectTables | apps/api/src/audit/audit.service.ts:465-508 | refused exactly if the table named is not whitelisted; otherwise a requested table is queried exactly if it has a history or is the mirror log and, for a scoped viewer, is not the mirror log and carries a branch |
| AuditQuery.TablesAre | apps/api/src/audit/audit.service.ts:473-504 | the same, in the order of the request |
| AuditQuery.BindParams | apps/api/src/audit/audit.service.ts:510-536 | each filter that is present has one parameter at its own number |
| AuditQuery.BuildArms | apps/api/src/audit/audit.service.ts:551-633 | one arm per table, in order, with the conditions and the limit placeholder it should carry |
| AuditQuery.ArmMeaning | apps/api/src/audit/audit.service.ts:564-597 | every placeholder of an arm is in range and its WHERE clause accepts exactly the wanted rows |
| AuditQuery.Compile | apps/api/src/audit/audit.service.ts:461-675 | bad table, no table, or a plan in which every number of the count and data query hits its own parameter |
| AuditQuery.CompiledAnswers | apps/api/src/audit/audit.service.ts:597-675 | without the mirror arm, running the compiled plan gives a page that the direct query may give |
| AuditQuery.SamePage | apps/api/src/audit/audit.service.ts:538-675 | with any fixed tie-break the compiled plan gives exactly the page that sorting all wanted rows gives, however many share a `valid_to` |
| AuditQuery.CompiledPagesTile | apps/api/src/audit/audit.service.ts:466-467 | such pages 1 to n, one after the other, are the sorted wanted rows up to where they reach |
| AuditQuery.RankedRunExecutes | apps/api/src/audit/audit.service.ts:597-675 | without the mirror arm such a run is one of the runs of the query as written |
| AuditQuery.RankedRunExists | apps/api/src/audit/audit.service.ts:597-675 | and every ranking of the rows has one |
| AuditQuery.ScopedViewerAnswers | apps/api/src/audit/audit.service.ts:487-504 | the same for every scoped viewer, who only ever reads tables restricted to their branches |
| AuditRows.TakesPartIff | apps/api/src/audit/audit.service.ts:473-504 | a table is queried exactly if it is asked for, has a history or is the mirror log, and, for a confined viewer, is not the mirror log and is `users` or has a branch column |
| AuditRows.PageRows | apps/api/src/audit/audit.service.ts:461-700 | on every database and run of the plan, ties and mirror log included, a page shows only rows of the database that pass actor, dates and the viewer's branches |
| AuditRows.WholePageIff | apps/api/src/audit/audit.service.ts:461-700 | a first page with room for everything shows exactly those rows, each as often as it is there |
| AuditRows.LogMatchesRecord | apps/api/src/audit/audit.service.ts:415-455 | a row is in a viewer's unfiltered log exactly if the history of its record is open to them |
| AuditLimits.MirrorPushdownIff | apps/api/src/audit/audit.service.ts:564-611 | the rewriting is right on every database exactly when the mirror arm is not selected |
| AuditLimits.MirrorArmMisleads | apps/api/src/audit/audit.service.ts:605-674 | with the mirror arm some database gives a page the direct query never gives |
| AuditCount.TotalsAgreeIff | apps/api/src/audit/audit.service.ts:513-655 | two requests, of any two viewers, are owed one total on every database exactly if neither has anything to count or they agree on tables, actor, dates and, where a table has branches, branches; page and limit do not matter |
| AuditCount.CountKeyIff | apps/api/src/audit/audit.service.ts:642-655 | two requests with one cache key are owed one total on every database exactly when their company branches agree, or nothing they look at has branches, or their window is empty |
| AuditLimits.RecordScopeMeaning | apps/api/src/audit/audit.service.ts:415-455 | behind any number of leading parameters the scope clause hits its own parameters and means the viewer's scope |
| AuditLimits.RecordHistoryBinds | apps/api/src/audit/audit.service.ts:374-392 | id, scope, limit and offset of the record query each hit their own parameter |
| AuditLimits.TimeTravelBinds | apps/api/src/audit/audit.service.ts:733-758 | the same behind the two parameters of the point-in-time query |
| SessionTypes.ReconciledStaysInside | apps/api/src/auth/session-store.service.ts:195-206 | after a membership change the active branch is a membership or none, and moved only if it was removed |
| SessionTypes.RefreshedCodesOwnCompany | apps/api/src/auth/session-store.service.ts:216-262 | a session in a company gets exactly the codes granted there, one without a company every granted code once |
| SessionTypes.ReconciledIs | apps/api/src/auth/session-store.service.ts:171-203 | the branches are those of the memberships in order; the current one is kept if it is one of them or was none, else it is the first primary one, else the first, else none |
| SessionTypes.RefreshedCodesAre | apps/api/src/auth/session-store.service.ts:233-262 | the codes, in order, of the grants in the session's company; without a company of all grants, each code at its first grant |
| SessionStore.SessionStoreService.CreateSession | apps/api/src/auth/session-store.service.ts:24-39 | a fresh row, or none where the token exists, and in any case the Redis entry if Redis is healthy |
| SessionStore.SessionStoreService.GetSession | apps/api/src/auth/session-store.service.ts:41-72 | Redis first, else a live row, which is written back with its remaining lifetime |
| SessionStore.SessionStoreService.TouchSession | apps/api/src/auth/session-store.service.ts:74-95 | healthy: only Redis is extended; otherwise the row |
| SessionStore.SessionStoreService.UpdateSession | apps/api/src/auth/session-store.service.ts:97-116 | the row if it is not revoked, and Redis in any case |
| SessionStore.SessionStoreService.DeleteSession | apps/api/src/auth/session-store.service.ts:118-128 | the row is revoked and the Redis entry removed |
| SessionStore.SessionStoreService.DeleteAllUserSessions | apps/api/src/auth/session-store.service.ts:130-151 | every active row of the user is revoked and removed from Redis, and counted |
| SessionStore.SessionStoreService.RefreshUser | apps/api/src/auth/session-store.service.ts:165-265 | both refresh loops rewrite each active session once, from the rows selected at the start |
| SessionStore.StepRefines | apps/api/src/auth/session-store.service.ts:24-128 | one operation on the two levels is the same operation on a plain map |
| SessionStore.RunRefines | apps/api/src/auth/session-store.service.ts:24-265 | so is any sequence of operations, outages and cold recoveries |
| SessionStore.GetReturnsLastWritten | apps/api/src/auth/session-store.service.ts:41-72 | a read returns the last session written for the token or nothing, and nothing for a deleted one |
| SessionStore.CoherentIff | apps/api/src/auth/session-store.service.ts:41-72 | every token reads its last session or nothing exactly when each unexpired Redis entry is the last session written |
| SessionStore.UpdateReadsIff | apps/api/src/auth/session-store.service.ts:97-116 | after an update all reads are right exactly when Redis is out of use, or the token is live and its lifetime positive, or, without one, Redis holds nothing else for it |
| SessionStore.UpdateRevives | apps/api/src/auth/session-store.service.ts:97-116 | an update after a delete brings the session back |
| SessionStore.RefillRaceIff | apps/api/src/auth/session-store.service.ts:41-72 | after a late refill all reads are right exactly when Redis is out of use by then or nothing changed or deleted the session meanwhile |
| SessionStore.RefillRevives | apps/api/src/auth/session-store.service.ts:66-68 | a refill after a delete brings the session back |
| SessionStore.WarmRecoveryIff | apps/api/src/auth/session-store.service.ts:281-317 | after an outage all reads are right exactly when no session of an entry that has not expired by then was changed or deleted |
| SessionStore.RecoveryRevives | apps/api/src/auth/session-store.service.ts:310-317 | a session deleted during an outage is read again after it |
| SessionStore.DeleteAllReachesIff | apps/api/src/auth/session-store.service.ts:130-151 | killing all sessions ends one exactly when its row has not expired or Redis has lost it |
| SessionLaws.RefreshReaches | apps/api/src/auth/session-store.service.ts:165-265 | after a refresh every live, unexpired session of the user reads the new branches or codes and is otherwise as before; every other session reads what it read |
| SessionLaws.WrittenUntil | apps/api/src/auth/session-store.service.ts:24-39 | a session that is created or written again is read for exactly its lifetime |
| SessionLaws.CreatedTwice | apps/api/src/auth/session-store.service.ts:24-39 | a token drawn twice leaves the row alone, and the new session is read while Redis is in use |
| SessionLaws.TouchedUntil | apps/api/src/auth/session-store.service.ts:74-95 | a touch extends the entry and never the row while Redis is in use, the row without it; without an entry it does nothing |
| SessionLaws.SlidingIff | apps/api/src/auth/session-store.service.ts:74-95 | over any run of touches, passing time and other sessions' operations, a session in Redis is read, unchanged, exactly as long as each touch comes before the last one's lifetime is over |
| SessionLaws.RowDecides | apps/api/src/auth/session-store.service.ts:41-72 | after an outage, a cold recovery or an eviction the row alone decides what is read |
| SessionLaws.RefillUntil | apps/api/src/auth/session-store.service.ts:66-68 | a refilled session is read exactly as long as its row, or for one second if that is longer |
| SessionLaws.RefreshedUntil | apps/api/src/auth/session-store.service.ts:267-279 | a refresh moves the end of a session by half a second at most; without a Redis entry to the last whole second of the row, or to one minute |
| SessionLaws.DeleteAllSparesOthers | apps/api/src/auth/session-store.service.ts:130-151 | killing a user's sessions leaves everyone else's as they were |
| SessionScope.AuthService.ResolveBranch | apps/api/src/auth/auth.service.ts:219-235 | none for whoever the access rule finds global; else the primary branch if it is a membership, else the first; none for media buyers with several |
| SessionScope.AuthService.Login | apps/api/src/auth/auth.service.ts:212-333 | refusal without a branch, else a session that lands in its default company and permitted branches, by the access rule asked with the row |
| SessionScope.AuthService.StartMirror | apps/api/src/auth/auth.service.ts:406-611 | the four refusals in order, else the target's session, its branch by the access rule asked with role and permissions only, with the actor's scope saved |
| SessionScope.AuthService.StopMirror | apps/api/src/auth/auth.service.ts:617-763 | the actor's present row and permissions, their saved scope, and the branch by the access rule asked with role and permissions only |
| SessionScope.AuthService.SwitchBranch | apps/api/src/auth/auth.service.ts:980-1144 | refusal, or the session with its new branch, company, selection, codes and viewed currency |
| SessionScope.AuthService.SwitchCurrency | apps/api/src/auth/auth.service.ts:934-978 | succeeds exactly if the session exists and no country is asked for, or its currency is active in the session's company and granted or all countries may be viewed; only the viewed currency changes |
| SessionScope.AuthService.PatchGroupScope | apps/api/src/auth/auth.service.ts:1216-1221 | the backfill overwrites company and selection of whatever session is stored by then |
| SessionScope.ScopeInvariant | apps/api/src/auth/auth.service.ts:249-300 | in every state of every session a branch selection implies a company and lies inside it, whichever earlier state each request worked on |
| SessionScope.NextOk | apps/api/src/auth/auth.service.ts:515-745 | each operation keeps that, even when it acts on a state that was overtaken |
| SessionScope.LoginStartsInside | apps/api/src/auth/auth.service.ts:249-300 | every session starts inside its scope and not mirrored |
| SessionScope.BackfillInside | apps/api/src/auth/auth.controller.ts:619-674 | what `/auth/me` backfills lies inside the company it names |
| SessionScope.SwitchScopeIff | apps/api/src/auth/auth.service.ts:1046-1139 | a switch keeps the selection inside a company exactly when the branch looked up exists (or, without one, the own branches are of one company), or the pick is empty, or the user is neither global nor owner of any of it |
| SessionScope.UnknownPickEscapes | apps/api/src/auth/auth.service.ts:1046-1139 | an administrator who picks an unknown branch ends with a selection in no company |
| SessionScope.SwitchStaysOwn | apps/api/src/auth/auth.service.ts:1046-1139 | straight after a switch a non-global user who owns a branch there sees own branches only, and the viewed currency is none or granted there |
| SessionScope.PermittedInside | apps/api/src/auth/auth.service.ts:282-300 | permitted branches belong to the company, and are own branches where the user owns one |
| SessionScope.MirrorKept | apps/api/src/auth/auth.service.ts:406-414 | without a stop, every later state is mirrored as at the start exactly if no request that read the session before the start writes it after |
| SessionScope.MirrorKeptIff | apps/api/src/auth/auth.service.ts:980-1141 | the same for one request |
| SessionScope.OvertakenSwitchEscapes | apps/api/src/auth/auth.service.ts:934-946 | a currency switch admitted before the start and written after it ends the mirror |
| SessionScope.MirrorRoundTrip | apps/api/src/auth/auth.service.ts:582-758 | start, any requests that are not overtaken, then stop: identity, company and selection are restored, and the branch exactly when the stop's own question lets the actor stand on it |
| SessionScope.LoginBranchBackIff | apps/api/src/auth/auth.service.ts:219-235 | whoever mirrors straight after login gets the branch back exactly unless they are a head by flag alone whom the default would put on a branch |
| SessionScope.SwitchBranchLostIff | apps/api/src/auth/auth.service.ts:989-1034 | who loses the branch a switch let them stand on: heads by flag alone and media buyers off their own branches, and those on "All Branches" whom the default puts on one |
| SessionScope.SwitchAnswerIff | apps/api/src/common/authz.ts:70-86 | the answers at login, switch and mirror differ exactly for a head by flag alone |
| SessionScope.HeadLosesAllBranches | apps/api/src/auth/auth.service.ts:689-720 | a head of marketing by flag, with one membership, is put on it by a mirror and its stop |
| ScopeLaws.GlobalAre | apps/api/src/common/authz.ts:70-86 | who is global to login, to mirror start and stop, and to the switcher, by role, permissions and flag |
| ScopeLaws.PermittedIs | apps/api/src/auth/auth.service.ts:282-300 | a branch may be viewed exactly if it is the company's and the user sees everything, owns none there, or owns it |
| ScopeLaws.LoginIs | apps/api/src/auth/auth.service.ts:212-333 | who is refused, and which branch, company, selection, codes and row a new session has |
| ScopeLaws.StartIs | apps/api/src/auth/auth.service.ts:406-611 | a mirror starts exactly for whoever is not mirroring and may mirror an active user who is global or has a branch; what the session has and what is saved |
| ScopeLaws.StopIs | apps/api/src/auth/auth.service.ts:617-763 | a mirror stops exactly while mirroring, for an actor who is still there; branch, company, selection, codes and row afterwards |
| ScopeLaws.SwitchRefusedIff | apps/api/src/auth/auth.service.ts:989-1034 | who may not switch to what |
| ScopeLaws.SwitchedIs | apps/api/src/auth/auth.service.ts:1036-1141 | after a switch the session stands on the branch asked for, in the company found, with exactly the selection and the codes granted there; the viewed country is kept exactly if it is granted there; the rest is as before |
| ScopeLaws.SwitchLasts | apps/api/src/auth/auth.service.ts:1131-1141 | the branch asked for stays in every later state until a request writes another, or one that it read before |
| ScopeLaws.CurrencyIs | apps/api/src/auth/auth.service.ts:934-978 | which countries may be viewed, whatever the case of the code; only the viewed one changes, stored in capitals |
| ScopeLaws.RefreshWrites | apps/api/src/auth/session-store.service.ts:165-265 | a refresh writes the session it read with the branches or codes of now and nothing else |
| ScopeLaws.RequestOutcome | apps/api/src/auth/auth.service.ts:515-1141 | what each request leaves in the session's history, accepted or refused, from the state it read |
| ScopeLaws.BackfillIs | apps/api/src/auth/auth.controller.ts:619-674 | when `/auth/me` backfills, and which company and selection |
| ScopeLaws.BackfillSettles | apps/api/src/auth/auth.controller.ts:619-674 | a backfill changes company and selection only and leaves nothing for the next one |
| BundleCaches.UserBundleCacheService.GetOrLoad | apps/api/src/auth/user-bundle-cache.service.ts:71-83 | a live entry, else the database's bundle, cached for 60 s |
| BundleCaches.UserBundleCacheService.InvalidateMany | apps/api/src/auth/user-bundle-cache.service.ts:94-97 | exactly the named users' entries are gone; an empty id is skipped |
| BundleCaches.LoadIsSteps | apps/api/src/auth/user-bundle-cache.service.ts:71-134 | an undisturbed load is a hit, or the two reads and the store of the step machine |
| BundleCaches.LoadLasts | apps/api/src/auth/user-bundle-cache.service.ts:71-134 | a load that misses answers what the database has, and is answered again for exactly 60 s whatever is written |
| BundleCaches.DroppedIsRead | apps/api/src/auth/user-bundle-cache.service.ts:85-97 | after an invalidation or an eviction the user's next request reads the database; no other entry and no request under way is affected |
| BundleCaches.SignsOne | apps/api/src/auth/auth.controller.ts:357-373 | signing adds one cookie, for 60 s, with the bundle's permissions and its role or, where that is empty, the session's |
| BundleCaches.SignedVerifies | apps/api/src/auth/session-bundle-cookie.ts:167-220 | a signed cookie verifies for exactly 60 s and gives back what was signed |
| BundleCaches.VerifyIff | apps/api/src/auth/session-bundle-cookie.ts:191-220 | a cookie is accepted exactly if its second part is the keyed hash of what its first part decodes to, and that is readable, of this version and not expired |
| BundleCaches.StalenessBound | apps/api/src/auth/auth.controller.ts:357-373 | on every interleaving an accepted cookie carries role and permissions the database held 120 s ago or later, plus twice the time of one request |
| BundleCaches.InvalidatedBound | apps/api/src/auth/user-bundle-cache.service.ts:85-88 | 60 s plus gap plus request time, when every write is invalidated within the gap and no invalidation finds a request that may still store something else |
| BundleCaches.InvalidationIff | apps/api/src/auth/user-bundle-cache.service.ts:71-88 | after an invalidated write, every continuation stays within that bound exactly when no request of the user that may still store holds something else than what was written |
| BundleCaches.GapReached | apps/api/src/users/users.service.ts:1031-1034 | the gap between commit and invalidation counts in full |
| BundleCaches.OverlapOutlivesInvalidation | apps/api/src/auth/user-bundle-cache.service.ts:71-88 | a load that read before the write and stores after the invalidation ends in an accepted cookie older than 60 s and the request time |
| ProductInventory.StockQuotient | packages/shared/scripts/dedupe-products.ts:203-229 | any list of merges gives each set of products exactly the stock, reservations and rows of the products sent into it, one row per product and location |
| ProductInventory.StockConserved | packages/shared/scripts/dedupe-products.ts:203-229 | stock and reservations at each location are unchanged in total |
| ProductInventory.AmountsQuotient | packages/shared/scripts/dedupe-products.ts:206-228 | the three statements of one merge move every amount from the dropped to the kept product |
| ProductInventory.MergedUnique | packages/shared/scripts/dedupe-products.ts:217-228 | the repointing never collides: deletion has removed each row whose location the kept product has |
| ProductMerge.ProductStore.MergeInventoryLevels | packages/shared/scripts/dedupe-products.ts:203-229 | the inventory table after the three statements |
| ProductMerge.ProductStore.MergeOfferTemplates | packages/shared/scripts/dedupe-products.ts:241-280 | campaigns and templates afterwards, or a foreign key failure |
| ProductMerge.ProductStore.MergeUserProductAssignments | packages/shared/scripts/dedupe-products.ts:282-300 | the assignments afterwards |
| ProductMerge.ProductStore.MergeCampaignProductIds | packages/shared/scripts/dedupe-products.ts:302-333 | every readable live list that names the product is rewritten, unreadable text is skipped, other JSON fails |
| ProductMerge.ProductStore.MergeOneDuplicate | packages/shared/scripts/dedupe-products.ts:342-363 | the whole database after one merge, or failure |
| ProductMerge.ProductStore.ApplyMerges | packages/shared/scripts/dedupe-products.ts:442-448 | all merges, or the database as it was |
| ProductMerge.PlanMerges | packages/shared/scripts/dedupe-products.ts:378-384 | the list of merges of all groups |
| ProductMerge.Least | packages/shared/scripts/dedupe-products.ts:250-260 | the replacement is the template with the smallest id |
| ProductLaws.RepOfPlan | packages/shared/scripts/dedupe-products.ts:378-384 | planned merges send each member to its own group's kept product and leave all others alone |
| ProductLaws.GroupInAnyOrder | packages/shared/scripts/dedupe-products.ts:378-384 | where references end up does not depend on the order within a group |
| ProductLaws.ReferencesFollow | packages/shared/scripts/dedupe-products.ts:342-363 | inventory, assignments, offers and every plain reference move along the product map, and no user is assigned twice |
| ProductLaws.RowsAre | packages/shared/scripts/dedupe-products.ts:362-362 | after any list of merges a product row is there, as it was, exactly if it was there and is not the current row of a dropped product |
| ProductLaws.PlannedRows | packages/shared/scripts/dedupe-products.ts:378-384 | after the planned merges of disjoint groups each kept product is as it was, no other member has a current row, and everything else is as before |
| ProductLaws.CampaignsFollow | packages/shared/scripts/dedupe-products.ts:245-279 | no campaign is left on a deleted template: it ends on one of the same name and the merged product |
| ProductLaws.MovesToSmallest | packages/shared/scripts/dedupe-products.ts:245-264 | a live campaign on a doubled template moves to the kept product's template of that name with the smallest id; no other campaign moves |
| ProductLaws.ProductListsFollow | packages/shared/scripts/dedupe-products.ts:302-333 | a live campaign's list holds the merged products in order of first appearance, without repeats |
| ProductLaws.OrderIndependent | packages/shared/scripts/dedupe-products.ts:442-448 | two orders with one product map leave the same stock, assignments, offers and references, where both go through |
| ProductLaws.CampaignsOrderIndependent | packages/shared/scripts/dedupe-products.ts:245-333 | and every campaign on the same products and on a template of the same name and product |
| ProductLaws.MergeFailsIff | packages/shared/scripts/dedupe-products.ts:342-363 | the causes of failure: a template deleted under an ended campaign, other JSON in a live list, and for a current product an ended template or a bundle row that names it |
| ProductOrder.TemplateSurvives | packages/shared/scripts/dedupe-products.ts:245-279 | through a whole group a template survives exactly if the kept product lacks its name and no product merged earlier has it |
| ProductOrder.TemplateOrderIff | packages/shared/scripts/dedupe-products.ts:265-279 | two orders of a group leave the same templates exactly if the same product comes first for every name the kept product lacks |
| ProductOrder.AnyOrderIff | packages/shared/scripts/dedupe-products.ts:265-279 | all orders do exactly if no name is contested by two of the group and missing on the kept product |
| ProductOrder.GroupTemplatesAre | packages/shared/scripts/dedupe-products.ts:342-358 | these are the templates that the transaction leaves |
| ProductOrder.GroupFailsIff | packages/shared/scripts/dedupe-products.ts:442-448 | a group fails exactly if its order deletes a template an ended campaign points at, or a live list is other JSON naming one of them, or a current one has an ended template or is named by a bundle row |
| ProductOrder.OneOrderOnlyIff | packages/shared/scripts/dedupe-products.ts:442-448 | one order goes through and another not exactly if only the other deletes such a template and nothing else is wrong |
| ProductOrder.OrderDecides | packages/shared/scripts/dedupe-products.ts:442-448 | two products and one ended campaign for which the order decides |
| ProductOrder.BundledFails | packages/shared/scripts/dedupe-products.ts:177-197 | one bundle row that names the duplicate is enough |
| ProductOrder.PlannedGroup | packages/shared/scripts/dedupe-products.ts:378-384 | the planned merges of a group are such a group |
| EdgeRateLimit.Limiter.CheckRateLimit | apps/edge-worker/src/index.ts:514-539 | answer and counters after one call, with the store bound or not and the write taken or not |
| EdgeRateLimit.WindowBound | apps/edge-worker/src/index.ts:514-539 | at most five requests of one address are recorded in any half-open 300 s |
| EdgeRateLimit.BurstFillsWindow | apps/edge-worker/src/index.ts:318-320 | of one address's requests within 300 s three pass, two are challenged, all others are blocked |
| EdgeRateLimit.BlockedUntil | apps/edge-worker/src/index.ts:514-539 | whoever is blocked stays so for exactly 300 s from their last recorded request, however often they try |
| EdgeRateLimit.QuietForgets | apps/edge-worker/src/index.ts:514-539 | after 300 s without a request the address starts afresh |
| EdgeRateLimit.AddressesIndependent | apps/edge-worker/src/index.ts:514-539 | an address is answered as if it were alone |
| AssistantRateLimit.Limiter.CheckRateLimit | apps/api/src/ai-assistant/ai-assistant.service.ts:281-291 | answer and buckets after one call |
| AssistantRateLimit.WindowBound | apps/api/src/ai-assistant/ai-assistant.service.ts:277-291 | at most 59 calls of one user in any closed five minutes |
| AssistantRateLimit.BoundReached | apps/api/src/ai-assistant/ai-assistant.service.ts:277-291 | a trace with 59, all admitted |
| AssistantRateLimit.UsersIndependent | apps/api/src/ai-assistant/ai-assistant.service.ts:279-291 | a user gets the answers they would get alone |
| Escapers.FivePassesAreOne | apps/edge-worker/src/index.ts:3073-3080 | the five sequential passes are one map over the characters |
| Escapers.HtmlRoundTrip | apps/edge-worker/src/index.ts:3073-3080 | unescaping gives the text back, and the escaped text has none of the four markup characters |
| ScriptJson.SafeJsonIs | apps/edge-worker/src/index.ts:3107-3114 | the five passes spell each code unit on its own |
| ScriptJson.SafeJsonIsInert | apps/edge-worker/src/index.ts:3107-3114 | no angle bracket, ampersand or line separator remains |
| ScriptJson.SafeJsonKeepsMeaning | apps/edge-worker/src/index.ts:3107-3114 | any JSON text reads the same afterwards, by section 7 of RFC 8259, after backslashes too |
| ScriptJson.SafeStringRoundTrip | apps/edge-worker/src/index.ts:3107-3114 | any string, written and made safe, is read back as it was |
| PageTree.MakeNodes | packages/shared/src/page-registry.ts:152-157 | one node per key, in the order of first appearance, with the last entry |
| PageTree.LatestIs | packages/shared/src/page-registry.ts:155-157 | of each key the map has the last entry, and nothing else |
| PageTree.LatestInOrder | packages/shared/src/page-registry.ts:155-157 | its keys are in the order of their first appearance |
| PageTree.ParentIs | packages/shared/src/page-registry.ts:158-164 | an entry stands under the entry whose key it names, and at the top if it names none, the empty one or an unknown one |
| PageTree.BuildPageTree | packages/shared/src/page-registry.ts:151-166 | each node's children, and the roots, are its entries in input order |
| PageTree.ShownIff | packages/shared/src/page-registry.ts:158-164 | an entry is reached from the roots exactly when its parents lead to the top, and then once |
| PageTree.AllShownOnce | packages/shared/src/page-registry.ts:151-166 | with unique keys and acyclic parents every entry is reached exactly once |
| PageTree.LinkedIsTree | packages/shared/src/page-registry.ts:158-164 | the linked nodes are the tree of the entries |
| PageTree.KeepsExactly | packages/shared/src/page-registry.ts:177-190 | the filtered forest has, in order, exactly the nodes that are accessible or have something accessible below |
| PageTree.Monotone | packages/shared/src/page-registry.ts:169-192 | filtering is idempotent, and fewer permissions give the larger view filtered |
| PageTree.BypassSeesAll | packages/shared/src/page-registry.ts:174-185 | the three bypass roles see the forest as it is |
| PageTree.LeafKeptIff | packages/shared/src/page-registry.ts:174-188 | to whom a page without sub-pages is shown |
| DuplicateRequests.SameUserKeyIff | apps/api/scripts/cleanup-duplicate-permission-requests.ts:38-51 | when two user-creation requests share a key |
| DuplicateRequests.RoleKeysApart | apps/api/scripts/cleanup-duplicate-permission-requests.ts:53-58 | a role change shares a key exactly with a role change of the same target |
| DuplicateRequests.HasKeyIff | apps/api/scripts/cleanup-duplicate-permission-requests.ts:38-58 | which requests have a key at all |
| DuplicateRequests.GroupByKey | apps/api/scripts/cleanup-duplicate-permission-requests.ts:142-149 | each key's group is its rows in order, and rows without a key are in none |
| DuplicateRequests.FindDuplicates | apps/api/scripts/cleanup-duplicate-permission-requests.ts:151-180 | the rows to reject are exactly those with an older pending row of the same key |
| DuplicateRequests.RequestTable.Cleanup | apps/api/scripts/cleanup-duplicate-permission-requests.ts:142-197 | exactly those are rejected; without `--apply` nothing changes |
| DuplicateRequests.OldestSurvives | apps/api/scripts/cleanup-duplicate-permission-requests.ts:151-180 | of the pending rows of a key exactly the oldest by creation time, then id, stays pending |
| DuplicateRequests.RejectedIff | apps/api/scripts/cleanup-duplicate-permission-requests.ts:130-197 | a row is rejected exactly if it is a pending user creation or role change and a pending one of the same key was created earlier, or at the same time with a smaller id; nothing else changes |
| DuplicateRequests.SecondRunIdle | apps/api/scripts/cleanup-duplicate-permission-requests.ts:142-197 | a second run rejects nothing |

## Left out

- QueueNoLoss.NoLoss: a submission is known by its payload, so of two submissions with equal payloads one delivered copy discharges both, as the API itself takes a rapid equal resubmission for a duplicate.
- The clients of HTTP, KV, Redis, Postgres and QStash: their calls are atomic steps whose success, loss and timing are chosen freely. How the Redis client serialises an `lrem` argument is taken as described above.
- JSON, base64url, the keyed hash and the key of the cookie: an abstract codec that decodes what it encodes. `extractBundleCookieValue` is not part of this model.
- Cookies issued by the branch, currency and mirror switches: they stamp the session's own role and permissions, so the staleness bounds speak of cookies issued by login and `/auth/me` only.
- Who may mirror whom, and how effective permissions come from templates and overrides: a flag and a set of permissions.
- SessionScope.ScopeInvariant: assumes that the branch a switch looks up exists and that companies have non-empty ids; `SwitchScopeIff` says exactly when a switch keeps the scope without that.
- QueueBudget.RetryBudget: for one drain at a time; overlapping drains are covered by `NoLoss` only.
- BundleCaches: assumes that invalidations reach Redis; a write whose invalidation fails counts as one that does not invalidate, and is covered by `StalenessBound`.
- SessionStore.RunRefines: a session is created under a token that is not in the table, as tokens are drawn at random; what a repeated token does is in the contract of `CreateSession`.
- Failed database writes in the session store, and the session fields that no operation here reads.
- The whitelist constants of the audit log: a parameter. The meaning of `timeTravel` and `diffVersions` depends on a database trigger that is not part of this model; only their placeholders are.
- In the product merge: how duplicates are found, 32-bit overflow of stock counts, the prices of a deleted template (which its deletion removes with it), ids inside object keys of a campaign's list, and how the driver encodes the rewritten list.
- Ids of products, templates, users and permission requests: natural numbers, as only their order matters.
- The `trim` and lower-casing of the duplicate keys: abstract functions.
- The page registry's own entries, labels and default filters.
- Forms, pages, styling, beacons and the service worker's offline queue, a weaker copy of the edge queue.
- General ledger, payroll, orders service, permission resolution, phone hashing, AI chat and seed or report scripts.
