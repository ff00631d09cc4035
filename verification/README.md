# PulseWatch: verified models

PulseWatch watches servers: agents push metrics and log lines, rules turn
metrics into alert events, periodic tasks aggregate, resolve and check
heartbeats, and users work through a web dashboard or a Telegram bot. Its state
lives in Postgres and Redis, and API requests, Celery beat tasks, the bot and
the log sockets change it in small steps.

This project models that logic in Dafny and proves what holds in every run.
`dafny verify dfyconfig.toml` checks all of it.

Concurrent code is a transition system whose steps are the stretches between two
awaits (`Enabled`/`Apply`, or a relation `Next`), and a theorem about it
quantifies over all finite runs. Code that loops or updates fields is a class or
a method proved against a function of the old state; the theorems are about that
function. Redis is a map from keys to values with an expiry time, a table is a
map or a sequence, a time is an integer.

| file | what it covers |
|---|---|
| `Keys`, `RedisClient`, `OneShot` | key names and the revocation pattern, the Redis helpers, one-shot codes and the two-step `/delete` |
| `Sessions`, `SessionRuns`, `SessionLives`, `SessionStories`, `Clients` | refresh-token rotation with reuse detection (sections 6 and 10.4 of RFC 6749), and browsers using it |
| `LogBatching` | the agent's log socket: receiver, flusher, lock, final flush |
| `Alerts`, `AlertRuns`, `AlertStories` | rule evaluation, cooldown, resolving sweeps |
| `Dates`, `Windows`, `Timestamps`, `Aggregation`, `AggregationRuns` | calendar and window arithmetic, statistics, upserts, agreement of granularities |
| `BotDialog`, `BotChat`, `BotLinks`, `BotStories`, `Polling` | the `/createrule` dialog, message dispatch, linked users, the polling loop |
| `Heartbeat`, `Registry`, `Dashboard` | heartbeat notices, log subscribers, the cached dashboard |
| `Options`, `Arithmetic`, `Listing` | what the others share |

## Assumptions

- A new jti has never been drawn before; a signed token decodes only if it was
  issued and `now < exp` (sections 4.1.4 and 4.1.7 of RFC 7519). python-jose compares
  whole seconds and accepts a token in the second `exp` itself, so a jti that is rotated
  in the very second it was drawn can outlive its mark by a fraction of a second.
- A Redis pipeline is atomic, a key is live while `now` is below its expiry, and
  SCAN yields every key that is present throughout the scan.
- A row commits at or after its `collected_at`.
- Clocks never go back. `collected_at` differs between the rows of one server (or
  container) where alerts need it; the dashboard theorems do not.
- One evaluation, one run of the resolve task, one aggregation query and one heartbeat
  pass are each one step. Which attributes of a row are not numbers depends on its table
  only. Reals stand for floats.

## Findings

Where a promise fails there is a concrete run, and a theorem about all runs that says
when it holds.

- README.md:256 of the repository says that a recovery notice follows when metrics
  resume. The code refuses inactive servers at authentication (app/api/deps.py:74),
  so a server marked inactive can recover if and only if one of its requests of the
  last five minutes was already past authentication (`Heartbeat.RecoveryNeedsRace`,
  `Heartbeat.RaceIsReachable`).
- The used mark is a separate write after the pipeline. A token presented between the
  two is refused (`SessionRuns.RotatedOnce`) but not recognised as reuse
  (`SessionStories.RotatedButUnmarked`); recognition happens exactly from the mark on
  (`SessionRuns.ReuseRecognised`), and never if the refresh dies in between
  (`SessionRuns.CrashLeavesUnmarked`).
- A refresh that dies between a failed pipeline and its rollback leaves a whitelisted
  jti (`SessionStories.StrayJti`). The valid jtis outside the chains are exactly these,
  and no client holds a token for one (`SessionRuns.StrayIsRollingBack`).
- A password reset promises that the user has to log in again everywhere
  (app/api/auth.py:289). Two kinds of sessions survive it: a refresh that rotates while
  the reset scans (`SessionStories.RefreshSurvivesReset`), and a login that checked the
  old password before and stores its jti after (`SessionStories.LoginSurvivesReset`).
  These are all: `SessionLives.ValidAfterRevocation` and `SessionLives.LoginSurvives`
  say exactly which jtis and which logins are valid afterwards.
- The final flush of a log socket is skipped when the flusher has died of a rollback
  that raised, because awaiting it re-raises (`LogBatching.SkippedFinalFlush`); lines
  are lost exactly if the buffer was not empty then (`LogBatching.CloseOffersAll`).
- `collected_at` is the start of the inserting transaction, which begins with the lookup
  of the server, so a row can commit into a window that has already been aggregated
  (`AggregationRuns.LateRow`); a stored row is current exactly if that has not happened
  to it (`AggregationRuns.StoredRowIsCurrent`).
- The sweeps read any attribute of a row that a rule names, and ordering one that is not
  a number raises before the commit. One task runs the system sweep and then the docker
  sweep, so a system rule edited so keeps all events open, of docker rules too
  (`AlertStories.EditBlocksTask`), until it is edited again or deleted
  (`AlertRuns.OneRuleBlocksAll`). `Alerts.TaskClosesExactly` says when an event that
  should close does.
- `/start` neither clears a draft nor ends a dialog, and it leaves the links of other
  users to the chat as they are. With two linked users the bot raises on every message
  (`BotLinks.SharedChatIsMute`). When the first user's link is removed, the second can
  finish the dialog and get a rule on the first one's server (`BotStories.RelinkedRule`).
  The owner of a created rule owned its server when it was chosen exactly if the chat had
  the same user then as at the confirmation (`BotChat.RuleServerWasOwned`); otherwise the
  other's link was removed in between (`BotLinks.ForeignRuleNeedsUnlink`).
- A confirmation that names another server consumes the pending deletion all the
  same (`RedisClient.Client.ConsumePendingDelete`).

## Model

| member | source | states |
|---|---|---|
| Keys.NamesInjective | app/redis_client.py:152-159 | two different keys, of any of the eight families, never share a Redis name, so writing one never touches another |
| Keys.DigitsStandFor | app/redis_client.py:152-153 | the decimal text of an id, read digit by digit, is the id, without leading zero |
| Keys.NamesWrittenOut | app/redis_client.py:66-67 | one key of each family and the revocation pattern, letter by letter |
| Keys.PatternSelectsOneUser | app/redis_client.py:270 | as a Redis glob, the revocation pattern of a user matches exactly that user's whitelist entries: no user whose id starts with the same digits, no used mark, no other family |
| RedisClient.ScanFindsSessions | app/redis_client.py:262-273 | the keys a scan with that pattern can yield are the live sessions of the user, no more and no less |
| RedisClient.StoredIsRead | app/redis_client.py:129-132 | after a SET with expiry the key reads as the value until it expires and as nothing from then on, and every other key reads as before at all times |
| RedisClient.StoredIsTakenOnce | app/redis_client.py:76-89 | a value stored is there for the first taker before it expires, undisturbed by takes of other keys; every later taker gets nothing, and other keys read as before |
| RedisClient.Client.ConsumePendingDelete | app/redis_client.py:135-146 | succeeds exactly if a live request of that chat names that server; consumes the request even when it names another |
| RedisClient.Client.RotateRefreshJti | app/redis_client.py:188-204 | true exactly if the old jti was live; the new store is `Rotation` of the old one |
| RedisClient.RotationMovesValidity | app/redis_client.py:188-204 | afterwards the old jti is invalid and the new one valid, the old one is marked exactly if it was valid or marked before, and every other key reads as before |
| RedisClient.RotationLasts | app/redis_client.py:197-203 | at every later time: the new jti is valid for exactly the lifetime given, the old one never again, and a new mark lasts as long as the new jti |
| RedisClient.Client.RevokeAll | app/redis_client.py:262-273 | removes all live sessions of the user and nothing else, and counts them |
| OneShot.TakenWasPut | app/redis_client.py:70-89 | in any trace of puts and takes, a value taken was put earlier, had not expired, and nothing touched its key in between |
| OneShot.PutBetweenTakes | app/redis_client.py:76-89 | between two successful takes of one key lies another put |
| OneShot.TakeYieldsExactly | app/redis_client.py:76-89 | a take yields a value if and only if that value was put, has not expired and has been neither taken nor overwritten since |
| OneShot.CodeSucceedsOnce | app/redis_client.py:242-259 | a link code or reset token generated once succeeds at most once, within its lifetime, for the user it was generated for |
| OneShot.HandleDelete | app/telegram_bot.py:330-371 | the handler's reply, new server table and new store for every message: unknown or foreign server, request, stale or foreign confirmation, deletion |
| OneShot.OnlyTheOwner | app/telegram_bot.py:339-347 | in every run a message gets further than "not found" exactly if its user owns the server at that moment; otherwise neither table nor store changes |
| OneShot.DeletionEffect | app/telegram_bot.py:368-370 | a message takes a server out of the table exactly if it is the one named and a deletion was answered; all others stay with their owners |
| OneShot.ConfirmationDeletesExactly | app/telegram_bot.py:349-371 | in every run a confirmation by the owner deletes if and only if the chat requested the deletion of that server, then owned by the requester, less than 60 s before, and no message of the chat that counts came in between |
| OneShot.DeletionWasRequested | app/telegram_bot.py:349-371 | each deletion in any run confirms a request of the same chat for that server less than 60 s earlier, and no request or confirmation of that chat lies in between |
| OneShot.DeletionsHaveOwnRequests | app/redis_client.py:129-146 | two deletions from one chat never share a request |
| Sessions.StepKeepsInv | app/api/auth.py:144-216 | every step of login, refresh, logout, reset, scan, crash and clock keeps the protocol invariant: chains, tips, marks, issued tokens, revocations |
| Sessions.TipsOnlyFall | app/redis_client.py:188-204 | a jti that has a successor in its chain never becomes the newest again |
| Sessions.GoneStaysGone | app/redis_client.py:182-204 | a jti once stored and no longer valid is never valid again, after any step of any request |
| SessionRuns.RunInv | app/api/auth.py:88-304 | the invariant holds in every state of every interleaving |
| SessionRuns.TokenLastsFromDraw | app/core/security.py:34-44 | in every run the token of a login or refresh expires exactly one lifetime after its jti was drawn, whatever token the refresh presented |
| SessionRuns.PresentedExactly | app/api/auth.py:155-158 | a token presented to refresh or log out is taken on if and only if some earlier answer handed it out and its jti was drawn less than a lifetime ago; any other is rejected |
| SessionRuns.ChainsAreDisjoint | app/redis_client.py:188-204 | the descendants of the logins are duplicate-free sequences, disjoint from each other |
| SessionRuns.OneValidPerLogin | app/redis_client.py:188-204 | at any moment at most one jti descending from a login is whitelisted, and it is the newest |
| SessionRuns.ChainGrowth | app/api/auth.py:205-216 | a chain starts with a login and grows by exactly one jti, in a pipeline that deleted its live newest one, and by nothing else |
| SessionRuns.WhitelistBound | app/api/auth.py:205-214 | the number of valid jtis never exceeds the logins plus the rotations that are waiting to be rolled back |
| SessionRuns.OnlyLoginsAdd | app/api/auth.py:205-216 | apart from logins, the number of valid jtis grows in no step but a pipeline that deleted nothing, which adds just the jti its rollback deletes |
| SessionRuns.FinishedRefresh | app/api/auth.py:208-216 | a refresh that was answered leaves the presented jti invalid; one that was refused leaves the drawn jti invalid |
| SessionRuns.LogoutRevokes | app/api/auth.py:295-304 | once a logout has sent its DEL it is over and the jti it presented is invalid for good |
| SessionRuns.NeverValidAndUsed | app/redis_client.py:156-204 | no jti is whitelisted and marked used at once |
| SessionRuns.RotatedOnce | app/redis_client.py:188-204 | no jti is rotated successfully twice, however requests race |
| SessionRuns.MarkedForever | app/redis_client.py:156-159 | no step, revocation included, removes a used mark |
| SessionRuns.ReuseRecognised | app/api/auth.py:160-203 | an unexpired token that reaches the reuse test is recognised exactly if its rotation has been marked before, however long ago; then the revocation of all sessions the user has at that moment begins |
| SessionRuns.CrashLeavesUnmarked | app/redis_client.py:200-203 | a refresh that dies between its pipeline and its mark leaves the old jti unmarked in every state of the run: no one else ever marks it |
| SessionStories.GapStory | app/redis_client.py:197-203 | any run with a refresh about to rotate can go on so that its old, unexpired token passes the reuse test after the rotation |
| SessionStories.RotatedButUnmarked | app/redis_client.py:197-203 | a concrete nine-step run in which it does |
| SessionRuns.StrayIsRollingBack | app/api/auth.py:208-214 | in every run a valid jti is outside all chains if and only if it is the new jti of a failed rotation not yet rolled back, and then no client holds a token for it |
| SessionStories.StrayStory | app/api/auth.py:208-214 | any run with a refresh about to rotate can go on so that it loses against a logout and dies before its rollback, leaving such a jti |
| SessionStories.StrayJti | app/api/auth.py:208-214 | a concrete ten-step run in which it does |
| SessionRuns.ReuseIsReal | app/api/auth.py:160-171 | reuse handling starts only for a token that has a successor in its chain |
| SessionRuns.GoneForever | app/redis_client.py:182-185 | in every run an invalidated jti stays invalid |
| SessionRuns.RevokedForever | app/api/auth.py:286-290 | every session that was valid when a revocation (reset or reuse) began is invalid from its end on, whatever ran in between |
| SessionLives.ChainHasOneUser | app/api/auth.py:205-208 | all descendants of a login belong to the user who logged in |
| SessionLives.ValidExactly | app/redis_client.py:162-204 | in every run a jti is valid if and only if some step stored it, no later step sent a DEL for it and less than a lifetime has passed since |
| SessionLives.ValidAfterRevocation | app/api/auth.py:286-290 | after a revocation a jti of the user is valid if and only if it was stored after the revocation began, has had no DEL since and has not expired |
| SessionLives.LoginRevoked | app/api/auth.py:286-290 | from the end of a revocation on, no descendant of a login stored before its start is valid, old or new, unless a refresh rotated that login during the scan |
| SessionLives.LoginSurvives | app/api/auth.py:88-141 | after a revocation a login, whenever it began, has a valid jti if and only if it was stored after the revocation began or rotated before it ended, and its newest jti has had no DEL and has not expired; no older jti is ever valid |
| SessionLives.SurvivorWasStored | app/redis_client.py:262-273 | a descendant of any login that is valid when a revocation ends was drawn by a refresh that rotated the login during the scan, or the login itself was stored during the scan |
| SessionStories.ResetStory | app/redis_client.py:268-273 | any run with a refresh about to rotate a valid session can go on so that the refresh survives a password reset, whatever other sessions the user has |
| SessionStories.RefreshSurvivesReset | app/redis_client.py:268-273 | a concrete run in which it does: the new token is valid and handed out after the reset has ended |
| SessionStories.LateLoginStory | app/api/auth.py:97-138 | any run with a login past its password check can go on so that the login survives a password reset that ends before its jti is stored |
| SessionStories.LoginSurvivesReset | app/api/auth.py:97-138 | a concrete run in which it does |
| SessionRuns.RevocationIsConfined | app/redis_client.py:262-273 | a revocation changes no other user's key, no used mark and no key of another family |
| Clients.ServerKeepsWorld | app/api/auth.py:144-216 | every internal server step keeps the joint invariant of server and browsers, so a marked jti is held only by a client whose answer is under way |
| Clients.StartKeepsWorld | static/app.js:338-378 | so does opening a page or starting a login, refresh or logout |
| Clients.ReceiveKeepsWorld | static/app.js:368-419 | so does receiving an answer, which replaces or clears the stored tokens |
| Clients.WorldRunInv | static/app.js:318-378 | the joint invariant holds in every run of any number of clients |
| Clients.StoredTokenIsUnused | static/app.js:318-378 | the refresh token an idle client stores is never marked used |
| Clients.ReuseNeverFires | app/api/auth.py:155-203 | reuse detection never fires for clients that issue calls one at a time and receive every answer |
| Clients.RefusedOnlyByReset | static/app.js:347-356 | a refresh of such a client that presents a valid token drawn less than a lifetime ago is refused only if the entry has expired or a password reset of that user has deleted it meanwhile |
| Clients.AnswerDecides | static/app.js:368-419 | after an answer the client stores the token drawn for its login or refresh if that succeeded, and otherwise none |
| Clients.ExpiredIsAnswered | app/api/auth.py:155-158 | a client that presents a token drawn a lifetime ago or earlier, to refresh or to log out, gets its answer at once |
| Clients.LogoutIsAnswered | app/api/auth.py:295-304 | a client that logs out gets its answer once the entry has been deleted |
| Clients.KeptTokenStaysValid | static/app.js:318-329 | while a client keeps a token, nothing but its expiry or the scan of a password reset takes its validity away, whatever all other clients do |
| LogBatching.StepKeepsInv | app/api/websocket.py:69-107 | every step of receiver, flusher, cancellation and final flush keeps conservation, mutual exclusion and the bounds |
| LogBatching.LinesConserved | app/api/websocket.py:69-107 | in every interleaving the lines received are the settled batches, then the batch in flight, then the buffer, in order |
| LogBatching.UnsettledBounded | app/api/websocket.py:94-100 | the buffer holds at most 50 lines, a batch 1 to 50, and at most 100 lines are unsettled |
| LogBatching.FlushWhenFull | app/api/websocket.py:98-100 | in every run the receiver turns to flushing after a line exactly if the buffer has reached 50 |
| LogBatching.BatchBegins | app/api/websocket.py:74-78 | whoever gets the lock takes the whole buffer as its batch and leaves it empty |
| LogBatching.BatchEnds | app/api/websocket.py:79-85 | a batch is settled as a whole by the step that ends its commit, and counts as persisted exactly if that commit succeeded |
| LogBatching.CleanClosePersistsAll | app/api/websocket.py:101-107 | without a failed or cancelled commit, closing persists every line exactly once and in order |
| LogBatching.CloseOffersAll | app/api/websocket.py:79-107 | after closing, every line has been in a batch that was committed or dropped exactly if the flusher had not died of its rollback or nothing was left in the buffer |
| LogBatching.SkippedFinalFlush | app/api/websocket.py:83-107 | a concrete run in which it had, and a line is never offered to the database |
| Alerts.OperatorsPartition | app/services/threshold.py:31-40 | of gt, eq and lt exactly one holds, and gte, lte and neq are the complements of lt, gt and eq |
| Alerts.OperatorsAreOrdered | app/services/threshold.py:31-40 | gt and lt are each other's mirror and persist for values further away |
| Alerts.Store.EvaluateMetrics | app/services/threshold.py:43-196 | the evaluation loop, system and docker, yields `Evaluate` of the old state, and the returned events are the new ones in order |
| Alerts.Store.AutoResolve | app/services/alert_resolver.py:21-129 | the sweep with its cache closes exactly the events that an uncached lookup per event would close, and returns just those; it raises, and then changes nothing, exactly if one comparison does |
| Alerts.Store.Resolve | app/tasks/resolve_tasks.py:19-28 | the task has the effect of the system sweep and then, unless that raised, the docker sweep, and raises exactly if a comparison of either does |
| Alerts.TaskClosesExactly | app/tasks/resolve_tasks.py:26-28 | an event whose latest value no longer breaches is closed by the task if and only if no system comparison raises and, for a docker event, no docker comparison does either |
| Alerts.TaskClosesOnly | app/services/alert_resolver.py:47-65 | the task changes no other event |
| AlertRuns.TaskClosesByValue | app/services/alert_resolver.py:28-65 | if nothing raises, an open event whose rule exists, switched on or off, is closed at that time if and only if the value in the newest row of its server (and container) is not beyond the threshold |
| AlertRuns.TaskOnOtherColumns | app/services/alert_resolver.py:57-61 | for a column that is not a number, eq closes, neq keeps open and any other operator raises; a name the row does not have keeps open |
| AlertRuns.TaskLeavesOthers | app/services/alert_resolver.py:83-91 | events closed before, without rule, without row, and docker events without container stay as they are |
| AlertRuns.ActiveIsIrrelevant | app/services/alert_resolver.py:28-35 | switching any rule on or off changes no event that the task yields |
| AlertRuns.StepKeepsInv | app/api/alerts.py:98-146 | ingest, evaluation, rule creation, edit and deletion, deletion of a server, sweeps and the clock keep the invariant on rules, rows, events and firings |
| AlertRuns.CooldownRespected | app/services/threshold.py:72-91 | two firings of a rule are at least the cooldown in force at the later one apart, across edits and across the containers of a batch, even when the rule is gone by now |
| AlertRuns.FiringsAreEvents | app/services/threshold.py:78-91 | firings and events correspond one to one, with rule, time and cooldown, as long as the rule exists |
| AlertRuns.EventsSpaced | app/services/threshold.py:153-171 | for two rows of the events table for one rule, the evaluations that fired them, whose times went to last_triggered_at, were at least the cooldown the later one fired under apart |
| AlertRuns.FiringRateBounded | app/api/docker_metrics.py:36-47 | a rule whose cooldown stays at or above c > 0 fires at most floor(L/c)+1 times in any interval of length L |
| AlertRuns.EvaluationIsPerRule | app/services/threshold.py:64-91 | each rule of the query fires exactly if it breaches and has cooled down before the evaluation; no other rule changes |
| AlertRuns.EvaluationEvents | app/services/threshold.py:140-171 | each rule that fires gets one event with its value, threshold and container, in query order, and no other event changes |
| AlertRuns.FiresExactly | app/services/threshold.py:51-91 | a queried rule gets an event from an evaluation if and only if it is active, of the row's server and kind, names no other container, the row has the value it tests, the value is beyond the threshold, operator by operator, and the rule never fired or did so at least its cooldown ago |
| AlertRuns.EventSays | app/services/threshold.py:158-171 | that event has the value, the threshold, the server, the container and the time of the evaluation, is open, and the rule's last_triggered_at is that time |
| AlertRuns.LatestIsNewest | app/services/alert_resolver.py:132-156 | the lookup returns a row of that server and container that no other row is newer than, and nothing only if there is none |
| AlertRuns.ClosedOnlyByNews | app/services/alert_resolver.py:47-65 | a sweep closes an event only if a newer row for its server (and container) exists or its rule tests something else than when it fired |
| AlertRuns.StaysOpen | app/api/metrics.py:28-54 | through any sweeps, ingests, evaluations and edits, an open event stays open while there is no such news |
| AlertRuns.OpenAfterSweep | app/services/alert_resolver.py:103-123 | after a sweep that did not raise, an event it considered is closed now, or its latest value is absent or still breaches; one that raised has changed nothing |
| AlertRuns.BlockLasts | app/services/alert_resolver.py:57-61 | once the comparison for an open event raises, it raises in every later state of the run, whatever rows arrive, until its rule is edited or deleted or its server is deleted |
| AlertRuns.OneRuleBlocksAll | app/tasks/resolve_tasks.py:26-28 | until then no open event closes, if the rule is a system rule, and no open event of a docker rule does, if it is a docker rule |
| AlertStories.EditBlocksTask | app/api/alerts.py:113-117 | a concrete run in which a system rule is edited so, and the events of another system rule and of a docker rule, which would close, stay open |
| AlertRuns.SweepIsIdempotent | app/services/alert_resolver.py:41-71 | a second sweep without new rows or edits closes nothing, however late |
| AlertRuns.TaskIsIdempotent | app/tasks/resolve_tasks.py:19-28 | nor does a second task |
| AlertRuns.ResolvedOnce | app/services/alert_resolver.py:64-65 | in every run, once written, resolved_at never changes |
| Timestamps.ReadingInverse | app/tasks/aggregation_tasks.py:15-19 | reading date and time of a moment and putting them together again gives the moment |
| Timestamps.MomentInverse | app/tasks/aggregation_tasks.py:41-43 | and the other way round, for every date of the Gregorian calendar and every time |
| Timestamps.TruncationIsFloor | app/tasks/aggregation_tasks.py:15-43 | for all three tasks, truncating and shifting calendar fields, across months, leap days and years, equals floor division of the clock |
| Timestamps.LastClosedWindow | app/tasks/aggregation_tasks.py:29-31 | the chosen window is aligned, over, and the last one that is |
| Windows.NoWindowSkipped | app/tasks/aggregation_tasks.py:12-47 | with ticks at most one period apart, every window between the first and the last tick's is chosen by some tick |
| Windows.WindowsTile | app/tasks/aggregation_tasks.py:17-31 | a chosen hour is tiled by 12 aligned five-minute windows, a chosen day by 24 hours |
| Aggregation.StatsCount | app/services/aggregation.py:31-53 | the one-pass statistics hold the count and sum of the selected rows and are absent exactly if there are none |
| Aggregation.StatsExtremes | app/services/aggregation.py:31-48 | and their attained least and greatest value |
| Aggregation.PickedHas | app/services/aggregation.py:43-47 | the rows picked for a window are those of the server and container in it, each as often as it is there |
| Aggregation.AggregateDescribes | app/services/aggregation.py:56-71 | an aggregate row exists exactly if rows were picked, has their number, and in each of its cells the average, the least and the greatest value of its own column |
| Aggregation.AverageBetween | app/services/aggregation.py:31-71 | min <= avg <= max in every aggregate row |
| Aggregation.SplitWindow | app/services/aggregation.py:43-47 | the statistics of adjacent half-open windows combine to those of their union |
| Aggregation.MergeIsUnion | app/services/aggregation.py:31-71 | and the count-weighted merge of their aggregate rows is the row of the union |
| Aggregation.GranularitiesAgree | app/services/aggregation.py:31-71 | the row of a window is the merge of the rows of the n windows that tile it, and exists exactly if one of them does |
| AggregationRuns.Store.AggregateSystem | app/services/aggregation.py:19-110 | upserts the window's row if there is data, returns it, and changes no other key |
| AggregationRuns.Store.ContainersIn | app/services/aggregation.py:125-134 | the distinct names are exactly the containers that have a row in the window, each once |
| AggregationRuns.Store.AggregateDocker | app/services/aggregation.py:113-215 | names first and then container by container has the effect of one GROUP BY, and returns one row per container present |
| AggregationRuns.Store.AggregateAll | app/services/aggregation.py:218-234 | the loop over servers has the effect of one GROUP BY over both tables |
| AggregationRuns.DockerCountsAddUp | app/services/aggregation.py:140-157 | the sample counts of the containers of a window add up to its raw rows |
| AggregationRuns.PickedWindowAllowed | app/tasks/aggregation_tasks.py:12-47 | the window a task picks when it starts is aligned and over at whatever later time it is aggregated |
| AggregationRuns.StoredRowsAreExact | app/services/aggregation.py:51-102 | after any run of ingests and tasks, rows that commit late included, a stored row is the aggregate of the rows visible when its window was last aggregated, and there is none for a window that never was |
| AggregationRuns.StoredRowIsCurrent | app/services/aggregation.py:51-102 | it equals recomputation from the rows there are now exactly if no row of its own has become visible since |
| AggregationRuns.StoredRowDescribes | app/services/aggregation.py:56-88 | the same for every stored row in every run, over the rows visible when its window was last aggregated |
| AggregationRuns.LateRow | app/models/metric.py:17-19 | a concrete run in which a row becomes visible after its window was aggregated and stays out of the table |
| AggregationRuns.RerunChangesNothing | app/services/aggregation.py:73-88 | aggregating a window again leaves the table as it is exactly if no row of any of its keys has become visible since |
| AggregationRuns.StoredGranularitiesAgree | app/tasks/aggregation_tasks.py:12-58 | once an hour and its 12 five-minute windows (a day and its 24 hours) have been aggregated, in any order, and the fine rows are up to date, the stored coarse row is the merge of the stored fine rows exactly if it is up to date too |
| BotDialog.CompleteLength | app/telegram_bot.py:498-665 | a dialog is confirmed after exactly 8 accepted answers for a system rule and 9 for a docker rule |
| BotDialog.CreatedRulesAreLegal | app/telegram_bot.py:646-658 | the rule the answers stand for has a field legal for its type, a known operator, a name of 1 to 255 characters, and no container if it is a system rule |
| BotDialog.RuleCanBeTold | app/telegram_bot.py:498-665 | conversely every legal rule, of any type, field, operator, container and set of channels, can be told text by text, and the dialog then creates exactly that rule |
| BotDialog.ConfirmationWords | app/telegram_bot.py:637-644 | at the confirmation three words drop the draft, three create the rule and any other text asks again |
| BotDialog.DataAt | app/telegram_bot.py:504-506 | every answer given so far can be read back from the draft's dictionary |
| BotDialog.ConfirmingAddsNothing | app/telegram_bot.py:625-658 | the rule created is the rule that was shown for confirmation |
| BotChat.ServerStep | app/telegram_bot.py:508-531 | accepts exactly a number that is the id of a server the user owns, and records it |
| BotChat.TypeStep | app/telegram_bot.py:533-542 | accepts exactly the two metric types, and records the choice |
| BotChat.NameStep | app/telegram_bot.py:544-553 | accepts 1 to 255 characters and offers the fields of the chosen type |
| BotChat.MetricStep | app/telegram_bot.py:555-574 | accepts exactly the fields of the chosen type; only docker goes on to the container |
| BotChat.LateStep | app/telegram_bot.py:576-635 | container, operator, threshold and channels record what was answered, and the summary is the rule the answers stand for |
| BotChat.ConfirmStep | app/telegram_bot.py:637-665 | a yes creates that rule, a no drops the draft, anything else asks again |
| BotChat.ProcessRuleDraft | app/telegram_bot.py:498-672 | in every reachable draft the step determines the fields present, so that no step reads a missing one, the unknown-step branch is dead, and each outcome is the one the answers call for |
| BotChat.DraftHasAll | app/telegram_bot.py:621-658 | at the confirmation the dictionary holds every field and says what was answered |
| BotChat.Chat.Answer | app/telegram_bot.py:708-712 | one answer moves, keeps, ends or drops the stored draft as the dialog says |
| BotChat.Chat.HandleMessage | app/telegram_bot.py:678-742 | the dispatcher with expiry, /start, /cancel, other commands and the lookup of the user, which raises if several rows name the chat; every rule it created is the rule its answers stand for |
| BotChat.DialogHasOpening | app/telegram_bot.py:703-716 | in every run a dialog in progress goes back to one /createrule, its answers are all texts accepted since, and no clearing command or expiry lies between |
| BotChat.OpenerHasServer | app/telegram_bot.py:475-485 | the user who opened it had a server then |
| BotChat.DialogLasts | app/redis_client.py:209-219 | in every run it lasts until ten minutes after the message that opened it or gave its latest answer |
| BotChat.AnswerInTime | app/telegram_bot.py:708-712 | a text that fits the question and comes before that is taken |
| BotChat.Ignored | app/telegram_bot.py:680-701 | empty texts, /start, messages of a chat without exactly one user, and plain texts without an open dialog change nothing |
| BotChat.CommandEnds | app/telegram_bot.py:703-716 | any other command of the user ends an open dialog |
| BotChat.LogGrows | app/telegram_bot.py:646-661 | a message creates one rule at most and takes none back |
| BotChat.CreationHasDialog | app/telegram_bot.py:637-665 | in every run each created rule follows one /createrule and exactly 8 or 9 accepted answers, undisturbed, belongs to the confirming user and is legal |
| BotChat.RuleServerWasOwned | app/telegram_bot.py:512-523 | in every run the owner of a created rule owned its server when it was chosen exactly if the chat was linked to the same user then as at the confirmation |
| BotLinks.SharedChatIsMute | app/telegram_bot.py:92-95 | while two users are linked to a chat, no message moves its dialog or creates a rule |
| BotLinks.HandOverNeedsUnlink | app/telegram_bot.py:79-89 | between two messages of different users the link of the first is removed; /start alone does not do that |
| BotLinks.ForeignRuleNeedsUnlink | app/api/auth.py:312-322 | in every run a rule whose owner did not own the server when it was chosen comes from a chat that another user had then, whose link was removed before the confirmation |
| BotStories.RelinkedRule | app/telegram_bot.py:686-688 | a concrete run: one user chooses a server, /start links another, the first is unlinked, and the second confirms a rule on the server of the first |
| Polling.Poller.Round | app/telegram_bot.py:761-786 | one round dispatches the messages of a batch in order and moves the offset past it; a failed request changes nothing |
| Polling.RoundAdvances | app/telegram_bot.py:762-780 | a batch moves the acknowledged position on by exactly its updates |
| Polling.EachMessageOnce | app/telegram_bot.py:756-786 | in every run of the loop, however requests fail, the messages dispatched are those of the acknowledged updates, each once and in order |
| Polling.MessagesAreAll | app/telegram_bot.py:779-784 | the messages of a batch are those at the ascending places of the updates that carry one, as they are |
| Polling.NothingSkipped | app/telegram_bot.py:756-786 | with restarts that forget the offset as well, the updates dispatched are always the first so many of the stream |
| Polling.RepeatsNeedRestart | app/telegram_bot.py:758-780 | between restarts the updates dispatched are consecutive, each once and in order |
| Heartbeat.Task.Check | app/tasks/heartbeat_tasks.py:20-66 | marks exactly the silent servers inactive and the returned ones active, as judged before the pass, and announces each once |
| Heartbeat.PassDecides | app/tasks/heartbeat_tasks.py:28-55 | after a pass a server that is not paused and has been seen is active if and only if it was seen within five minutes; others are unchanged |
| Heartbeat.PassNotices | app/tasks/heartbeat_tasks.py:60-66 | one pass adds at most one notice per server, down for those it marked inactive and recovery for those it marked active |
| Heartbeat.PassFlips | app/tasks/heartbeat_tasks.py:33-56 | a server that a pass flips is not paused and was seen before, and its notice says which way it flipped |
| Heartbeat.NoticesAlternate | app/tasks/heartbeat_tasks.py:28-66 | in every run the notices of a server alternate, starting with down |
| Heartbeat.StuckForever | app/api/deps.py:71-75 | an inactive, silent server with no recent authenticated request left stays so in every continuation |
| Heartbeat.NoRecoveryWithoutRace | app/api/deps.py:71-75 | a server marked inactive while none of its requests of the last five minutes is past authentication never becomes active and never gets a recovery notice |
| Heartbeat.RaceCanRecover | app/api/metrics.py:25-40 | with such a request, its write, which carries the time of authentication, and the next pass make the server active and announce it |
| Heartbeat.RecoveryNeedsRace | app/api/deps.py:71-75 | right after a pass that marked it inactive, a server can become active again if and only if there is such a request |
| Heartbeat.RaceIsReachable | app/tasks/heartbeat_tasks.py:28-43 | a concrete run that reaches that situation |
| Registry.Manager.Subscribe | app/core/connection_manager.py:14-16 | adds one socket to one server's set |
| Registry.Manager.Unsubscribe | app/core/connection_manager.py:18-25 | removes one socket and drops an entry that becomes empty |
| Registry.Manager.Targets | app/core/connection_manager.py:30-31 | the snapshot lists each subscriber of the server once |
| Registry.Manager.Discard | app/core/connection_manager.py:48-55 | the clean-up loop removes just the failed sockets and drops an entry that becomes empty |
| Registry.Broadcast | app/core/connection_manager.py:27-55 | on its own, a broadcast tries each subscriber once, keeps exactly those it reached, and touches no other server |
| Registry.StepKeepsInv | app/core/connection_manager.py:14-55 | interleaved subscribe, unsubscribe and broadcast steps leave no empty set and no socket tried twice by a broadcast |
| Registry.EachTargetTriedOnce | app/core/connection_manager.py:36-46 | in every run a broadcast that has sent tried each socket of its snapshot exactly once, in order |
| Registry.LeavesOnlyForCause | app/core/connection_manager.py:48-55 | in every run a subscriber disappears only by its own unsubscribe or after a send of that broadcast to it failed, so one that joins meanwhile stays |
| Registry.FailedLeave | app/core/connection_manager.py:48-55 | in every run the clean-up of a broadcast takes out every socket it failed to reach |
| Registry.CleanExactly | app/core/connection_manager.py:36-55 | in every run a broadcast can clean up exactly if it has tried all its targets and has not done so before |
| Registry.SubscriberIsTarget | app/core/connection_manager.py:14-31 | in every run a socket that subscribed and neither unsubscribed nor failed since is among the targets of a broadcast |
| Registry.MembersAfter | app/core/connection_manager.py:14-25 | adding a socket and discarding sockets change the members of that server by just those |
| Dashboard.RankedIsLatest | app/api/servers.py:153-181 | the rows numbered 1 are exactly one per wanted server that has rows, each a latest row of its server, ties included |
| Dashboard.LatestIsUnique | app/api/servers.py:153-159 | with distinct times the latest row is determined |
| Dashboard.BuildDashboard | app/api/servers.py:144-217 | one ranked query and one grouped count give every server of the user the latest row and the open-event count that a lookup of its own would |
| Dashboard.OpenCountIs | app/api/servers.py:190-199 | the count of a server is the number of its unresolved events |
| Dashboard.Endpoint.Dashboard | app/api/servers.py:137-225 | answers from the cache while the entry lives, and otherwise with a fresh answer that it stores for 10 s; failing cache reads and writes are ignored |
| Dashboard.AnswersAreRecent | app/api/servers.py:137-225 | in every run, while the tables change and cache reads and writes may fail, each answer is right for the same user and the tables as they were less than 10 s earlier |
| Dashboard.CacheAnswersExactly | app/redis_client.py:44-53 | a request that can read the cache repeats the last stored answer of its user for ten seconds, and from then on gets a fresh one |
| Dashboard.FreshUnlessStored | app/api/servers.py:138-147 | a request that cannot read the cache, or whose user has nothing stored in the last ten seconds, gets a fresh answer |

## Left out

- JWT signing, bcrypt, TOTP and the rate limiter: foreign libraries; a token is the record (user, jti, expiry) it decodes to.
- SMTP, Telegram HTTP, Celery queues and retries, Prometheus counters, message texts, pub/sub and notification channels of events: I/O.
- RedisClient.Client.RotateRefreshJti: the sequential case; interleavings of its two steps are in `Sessions` and `SessionRuns`.
- RedisClient.Client.RevokeAll: the sequential case, and SCAN yields no key twice; interleavings and repeated keys are in `Sessions`, where the count is not modelled.
- OneShot.HandleDelete: the regular expression that splits the message is not modelled, and messages it does not match change nothing.
- Clients.ReuseNeverFires: the WebSocket `onclose` refresh paths use tokens captured when the socket was opened and are not such calls.
- AlertRuns.EventsSpaced: speaks of the time an evaluation took as now. The column created_at is the start of that transaction, which the containers of a batch that do not fire share, so in that column two rows can be slightly less than the cooldown apart.
- AlertRuns.StepKeepsInv: the two sweeps of a task are one step, and the pause gate of the ingest routes is not modelled, and an evaluation may follow its row at any later time; the last two only allow more runs.
- AggregationRuns.Store.AggregateAll: does not model a server that raises; runs allow tasks that cover only some servers or only one of the two tables.
- AggregationRuns.Store.AggregateDocker: docker rows share the shape of system rows; the constant zero traffic columns are dropped and the unused columns are there but mean nothing.
- Timestamps.TruncationIsFloor: years have no upper bound, and the first day of year 1, before which no window has a date, is excluded.
- BotChat.Chat.HandleMessage: the other commands count only as interruptions, and a failing insert at the confirmation is not modelled.
- BotDialog.CreatedRulesAreLegal: stripping, lower-casing and number parsing are parameters, so `nan` and Unicode digits are not looked into.
- Heartbeat.Task.Check: updates and announcements are one step; a crash between the commit and the announcements is not modelled.
- Dashboard.AnswersAreRecent: computing and storing an answer is one step; the fields copied straight from the server row are left out, and JSON encoding is not modelled.
- The agent, CRUD and list endpoints, CSV export, audit log, log retention, migrations and the user interface: each a filter, a branch or layout.
