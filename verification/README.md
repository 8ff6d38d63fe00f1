# The IB gateway's concurrency core, verified

The gateway is a handful of asyncio tasks that share one TWS connection per slot, a table of market-data
streams, a self-heal ladder, an option-quote cache and an operator command queue. This project models that
core in Dafny and proves what the tasks rely on, over every interleaving of their await points. Each
stretch of Python between two awaits is one atomic step; the world acts between steps (sessions come up and
die, errors are reported, time passes, Redis contents change).

Objects that the gateway updates in place are classes whose methods are proved against functions of the old
state; the properties of whole calls and whole runs are then lemmas about those functions.

| file | covers |
|---|---|
| Connection | one slot: sync, verify, disconnect, and `connect` with client-id failover, as functions and as a class |
| Failover | which client ids one `connect` tries, and where it leaves the index |
| Rotation | exactly when a failed attempt moves on to another client id |
| SlotRuns | any number of tasks sharing one slot: the lock, sessions dying, sync firing inside `connect`; the invariant |
| ConnectRuns, CallRuns | every scripted `connect` of Connection is a run of the machine in SlotRuns, and every call in a run is a scripted one; failover in every interleaving |
| VerifyRuns | what a failed probe ends, over whole runs |
| Refusals | what becomes of an attempt, told from the events of its handshake alone |
| ConnectResult | what `connect` returning True says about the slot |
| Backoff | the reconnect loop's sleeps |
| OnDemand, OptKey, Sorting | the on-demand registry, its pruning listing, the capped merge, option contract keys |
| CappedMerge | the capped merge told from its two lists alone |
| Reconcile | the market-data diff, single passes and whole runs |
| SelfHeal | the ladder from stale snapshot to soft reconnect to pod exit |
| OptCache | the option-cache heartbeat and its watchdog |
| OneShot | stream balance of option one-shots and of a whole cache refresh |
| OrderReads, Snapshot | the all-or-nothing order cache; account rows and their merge across slots |
| Protocol, Operator | parsing, allowlists, and what processing one stream entry does |
| OperatorRuns, OperatorCounts | the three-stream consumer over whole runs: order, accounting, how often an entry is handled |
| OperatorOutcomes | what becomes of each stream entry, told from its fields, its stream and the time |
| OperatorIsolation, OperatorCommands | noninterference of the environment streams; exactly which connection commands are handled |
| Common, Text | options and sets of elements; the string operations used |

## Where the code and its description part

For each of these a theorem says exactly when the code does what is expected, and another names an input or a
run for which it does not.

- A failed attempt can move on to another client id although nothing in it is a conflict: when its exception is
  mute and `last_error`, however old, names one; or when its text names one only once doubled
  (`Rotation.RotatesWithoutConflictIff`, `Rotation.SilentTimeoutsRotateIff`; reached in
  `Rotation.StaleRotationIsReached`, `Rotation.RequestNumberLooksLikeAConflict`, `Rotation.DoublingNamesAConflict`).
- `connect` can return True on a slot that is DISCONNECTED again (`ConnectResult.ConnectedOnReturnIff`,
  `ConnectResult.TrueButDisconnected`).
- A failed probe disconnects whatever session is held by the time it has the lock, another task's new one included
  (`Connection.FailedProbeEndsOnlyItsOwnIff`, `VerifyRuns.FailedProbeEnds`, reached in
  `VerifyRuns.ProbeEndsAnotherSession`).
- A failed HGETALL reads as "no heartbeats", so fresh members are not listed and are pruned
  (`OnDemand.FreshMemberSurvivesIff`, `OnDemand.FreshMemberIsLost`).
- A stale member stored in non-canonical spelling is never removed (`OnDemand.PruneIsCompleteIff`,
  `OnDemand.StaleSpellingIsKept`).
- `max_stream_stk` does not bound the streams: it does exactly when the watchlist alone keeps it
  (`OnDemand.CapHoldsIff`, `OnDemand.CapIsExceeded`).
- The ticker table and the open streams drift apart when a cancel fails, when the host session dies without the
  market loop's own check seeing it (another task finds it first, or it dies between that check and the pass), and when a ghost on another slot or a soft reconnect clears the table on a living session
  (`Reconcile.RunsKeepLedgerIff`). A stream lost unseen is never requested again (`Reconcile.AllStreamingIff`,
  `Reconcile.LostStreamStaysLost`, reached in `Reconcile.StreamsCanBeLost`); a stream orphaned by a clear is never
  closed on that session (`Reconcile.OrphanStaysOpen`, reached in `Reconcile.ClearingLeaksAStream`).
- The order book of a snapshot can miss a connected slot's orders: its session is dead when they would be asked
  for and back for the executions (`OrderReads.BookIsCompleteIff`, `OrderReads.BookCanBePartial`). That needs a
  whole reconnect inside the await between the two reads: unlikely, but nothing in the code rules it out.
- A failed re-read exits the process although the snapshot recovered (`SelfHeal.ExitIff`,
  `SelfHeal.ExitAlthoughRecovered`).
- A consumer group created again restarts at id 0 and its entries are handled again
  (`OperatorCounts.FinishedTwiceIff`, `OperatorCounts.HandledAgainIff`, reached in
  `OperatorRuns.RecreationHandlesAgain`).

## Model

| member | source | states |
|---|---|---|
| `Connection.SlotConnection.SyncConnectionState` | src/bifrost_plugin/ib_gateway/connection.py:71-85 | a CONNECTED slot whose session is gone loses it and becomes DISCONNECTED; any other slot is untouched |
| `Connection.SlotConnection.DisconnectSlot` | src/bifrost_plugin/ib_gateway/connection.py:119-127 | the session held is dead afterwards, none is held, and the state is DISCONNECTED |
| `Connection.SlotConnection.VerifyApiAlive` | src/bifrost_plugin/ib_gateway/connection.py:87-105 | the method, with events and other tasks' connects and disconnects at both awaits, refines `Verify`, whose outcome the next row states |
| `Connection.VerifyOutcome` | src/bifrost_plugin/ib_gateway/connection.py:87-105 | True exactly when the slot was CONNECTED on a living session and the probe answered; a slot that was not CONNECTED is left as it was; any other failure leaves it DISCONNECTED, holding nothing, with the session it was CONNECTED on gone |
| `Connection.FailedProbeEndsOnlyItsOwnIff` | src/bifrost_plugin/ib_gateway/connection.py:97-105 | a failed probe ends no other session exactly when none is held and alive once the disconnect has the lock |
| `VerifyRuns.FailedProbeEnds` | src/bifrost_plugin/ib_gateway/connection.py:104-127 | the same in every run of the machine; afterwards no session is alive |
| `VerifyRuns.ProbeEndsAnotherSession` | src/bifrost_plugin/ib_gateway/connection.py:94-105 | a run in which a failed probe ends the session another task has just opened |
| `Connection.SlotConnection.NoteError` | src/bifrost_plugin/ib_gateway/connection.py:179-184 | which text `last_error` keeps, a stale one included, and whether the failure counts as a conflict |
| `Connection.SlotConnection.FailAttempt` | src/bifrost_plugin/ib_gateway/connection.py:179-189 | a failed attempt rotates the index by one place mod n exactly on a conflict, and its session ends dead |
| `Connection.SlotConnection.TryOnce` | src/bifrost_plugin/ib_gateway/connection.py:147-191 | one pass of the client-id loop with events at each of its awaits behaves as its specification |
| `Connection.SlotConnection.TryAll` | src/bifrost_plugin/ib_gateway/connection.py:147-194 | the loop refines the recursive specification, from any slot and for any script of events |
| `Connection.SlotConnection.ConnectSlot` | src/bifrost_plugin/ib_gateway/connection.py:129-194 | maintenance refuses, a live session is kept, anything else runs the loop on a cleaned slot; a session it opens carries the id `client_id` reports |
| `Connection.NextIndexIsMod` | src/bifrost_plugin/ib_gateway/connection.py:184 | the rotation used in proofs is `(i + 1) % n` |
| `Connection.AfterFailure` | src/bifrost_plugin/ib_gateway/connection.py:179-189 | the index moves exactly when the failure rotates; no session is added |
| `Failover.AcceptedIffSucceeds` | src/bifrost_plugin/ib_gateway/connection.py:158-165 | an attempt is accepted exactly when the call returned, no 326 was reported, and the last of its session's events leaves it up |
| `Failover.FirstSuccessIsFirst` | src/bifrost_plugin/ib_gateway/connection.py:147-178 | the attempt named by FirstSuccess succeeds and none before it does |
| `Failover.ConflictTextRotates` | src/bifrost_plugin/ib_gateway/connection.py:114-117 | a settled text naming the conflict rotates, whatever `last_error` held before |
| `Failover.ConflictRotates` | src/bifrost_plugin/ib_gateway/connection.py:180-184 | every client-id conflict, by event or by exception text, rotates |
| `Failover.PassIsOk` | src/bifrost_plugin/ib_gateway/connection.py:147-191 | one pass opens one session with the current id, succeeds exactly on an acceptable attempt, and moves the index exactly by its rotation |
| `Failover.TriesStopAtFirstSuccess` | src/bifrost_plugin/ib_gateway/connection.py:147-194 | in general: a call succeeds exactly at the first attempt that can, and tries no id after it |
| `Failover.IndexMovesByRotations` | src/bifrost_plugin/ib_gateway/connection.py:183-184 | in general: the final index is the start moved on by the number of rotations |
| `Failover.RotatedIsMod` | src/bifrost_plugin/ib_gateway/connection.py:184 | moving on by up to n rotations is adding them mod n |
| `Failover.IndexIsStartPlusRotations` | src/bifrost_plugin/ib_gateway/connection.py:129-194 | in every call, whatever happens, the index ends at its start plus the rotations made, mod the number of ids |
| `Failover.SessionsCarryTriedIds` | src/bifrost_plugin/ib_gateway/connection.py:148-160 | the sessions a call opens carry the ids it tried, in order |
| `Failover.ConflictsVisitCyclically` | src/bifrost_plugin/ib_gateway/connection.py:147-194 | when every failure is a conflict the ids are visited in cyclic order and each failure rotates |
| `Failover.CycleIsRotation` | src/bifrost_plugin/ib_gateway/connection.py:147-148 | n places of the cycle from i are the first n of the list rotated to start at i |
| `Failover.FailoverComplete` | src/bifrost_plugin/ib_gateway/connection.py:129-194 | failover completeness from any starting index: connects on the first free id in cyclic order; if all conflict, each id is tried once and the index is back where it began |
| `Text.ContainsIff` | src/bifrost_plugin/ib_gateway/connection.py:116-117 | `sub in text` of the conflict test: exactly when sub occurs at some position |
| `Rotation.RotatesIff` | src/bifrost_plugin/ib_gateway/connection.py:180-184 | the except clause rotates exactly when a 326 was reported or the settled text, doubled, names the conflict |
| `Rotation.PassRotatesIff` | src/bifrost_plugin/ib_gateway/connection.py:147-191 | exactly when a pass moves the index, in terms of `last_error` at its start and what happens in it |
| `Rotation.RotatesWithoutConflictIff` | src/bifrost_plugin/ib_gateway/connection.py:180-184 | exactly when a pass that is no conflict moves the index |
| `Rotation.SilentTimeoutsRotateIff` | src/bifrost_plugin/ib_gateway/connection.py:180-184 | a call of plain timeouts rotates through every id if a conflict is left in `last_error`, and not at all otherwise |
| `Rotation.StaleRotationIsReached` | src/bifrost_plugin/ib_gateway/connection.py:147-194 | for any ids, one conflict followed by plain timeouts from a fresh slot rotates on every one of them |
| `Rotation.RequestNumberLooksLikeAConflict` | src/bifrost_plugin/ib_gateway/connection.py:152-156 | any error about request number 326 that is no conflict makes a fresh slot rotate on a plain timeout |
| `Rotation.DoublingNamesAConflict` | src/bifrost_plugin/ib_gateway/connection.py:114-117 | a text that names no conflict passes the test because it is applied to two copies of it |
| `SlotRuns.StepKeepsInv` | src/bifrost_plugin/ib_gateway/connection.py:71-194 | every step of every task, and every event, keeps the slot invariant |
| `SlotRuns.PathKeepsInv` | src/bifrost_plugin/ib_gateway/connection.py:71-194 | the invariant holds after every run |
| `SlotRuns.AtMostOneSession` | src/bifrost_plugin/ib_gateway/connection.py:51 | in every interleaving at most one session is live, and with the lock free it is exactly the one held |
| `SlotRuns.AwaitPointAgreement` | src/bifrost_plugin/ib_gateway/connection.py:64-85 | at every await: CONNECTED implies a session is held; one held implies CONNECTED or MAINTENANCE and was opened with the id `client_id` reports, index in range |
| `SlotRuns.MutualExclusion` | src/bifrost_plugin/ib_gateway/connection.py:120-133 | only the lock's owner is between `connect`'s awaits, and only one task is |
| `ConnectRuns.TriesReaches` | src/bifrost_plugin/ib_gateway/connection.py:147-194 | the client-id loop under any script is a run of the interleaving machine with the same final slot |
| `ConnectRuns.ConnectIsARun` | src/bifrost_plugin/ib_gateway/connection.py:129-194 | so is a whole `connect` call of an idle task from any world with the lock free, refused in maintenance included |
| `CallRuns.EveryCallIsScripted` | src/bifrost_plugin/ib_gateway/connection.py:133-194 | the converse: in every run, a task that gets the lock on a slot without a live session leaves it as `connect` does for a script whose attempts end as the run's own do and whose last waits see what the run's do |
| `CallRuns.FailoverInRuns` | src/bifrost_plugin/ib_gateway/connection.py:147-194 | failover in every interleaving: if every attempt of a call that does not connect is a conflict, its sessions try the ids in cyclic order; it gives up only after all of them, with the index back where it was |
| `CallRuns.ConnectedInRunsIff` | src/bifrost_plugin/ib_gateway/connection.py:163-194 | in every run a call leaves the slot CONNECTED exactly when its last attempt won and its waits were undisturbed |
| `Refusals.FlaggedIff` | src/bifrost_plugin/ib_gateway/connection.py:152-156 | an attempt counts as refused exactly when some reported error has code 326 or a message saying "already in use" in any case |
| `Refusals.ConflictTextIff` | src/bifrost_plugin/ib_gateway/connection.py:114-117 | the conflict test passes exactly on texts that say 326 or "already in use" in any case |
| `Refusals.PassInstallsIff` | src/bifrost_plugin/ib_gateway/connection.py:158-165 | a pass installs its session exactly if connectAsync returned, nothing was refused, and the session came up and was not lost; refused, it installs nothing and the index becomes (i + 1) mod n |
| `Refusals.PassMovesIndexIff` | src/bifrost_plugin/ib_gateway/connection.py:180-184 | a pass moves the index exactly if it was not good and was refused, or its text to blame names the conflict |
| `Refusals.AcceptClearsError` | src/bifrost_plugin/ib_gateway/connection.py:163-165 | an accepted session clears `last_error`; only what is reported while accounts are awaited remains |
| `Refusals.TwentyWaits` | src/bifrost_plugin/ib_gateway/connection.py:167-170 | at most twenty waits for managed accounts |
| `Refusals.CleanIs` | src/bifrost_plugin/ib_gateway/connection.py:138-145 | the slot as the loop starts: RECONNECTING, holding nothing, the session it held dead, all else as it was |
| `Refusals.ConnectOutcome` | src/bifrost_plugin/ib_gateway/connection.py:129-194 | a call in maintenance changes nothing and returns False; a living session is kept; otherwise the call succeeds exactly if some attempt is good |
| `Refusals.ConnectMovesOnWhenRefused` | src/bifrost_plugin/ib_gateway/connection.py:147-194 | a call whose attempts are all good or refused tries the ids in cyclic order up to the first good one; refused everywhere, it tries each once and is back where it began |
| `Refusals.AttemptInRun` | src/bifrost_plugin/ib_gateway/connection.py:147-191 | the same for an attempt in any run of the machine, from what its task heard since it started |
| `ConnectResult.AcceptedStays` | src/bifrost_plugin/ib_gateway/connection.py:163-178 | an accepted session stays held and CONNECTED exactly while nobody enters maintenance or syncs after it dropped, and without maintenance the slot is otherwise DISCONNECTED |
| `ConnectResult.ConnectedOnReturnIff` | src/bifrost_plugin/ib_gateway/connection.py:129-194 | a `connect` that opened a session and returns True leaves the slot CONNECTED exactly when its waits were undisturbed; one that returns False after trying leaves it DISCONNECTED |
| `ConnectResult.TrueButDisconnected` | src/bifrost_plugin/ib_gateway/connection.py:163-178 | a concrete call that returns True and leaves the slot DISCONNECTED |
| `Backoff.ReconnectLoop` | src/bifrost_plugin/ib_gateway/connection.py:196-219 | the sleep of every turn, and the count of reconnects |
| `Backoff.DelayClosedForm` | src/bifrost_plugin/ib_gateway/connection.py:204-219 | the sleep after k failures is min(base * 2^k, max), within [base, max] and never shrinking |
| `Backoff.MaintenanceIsInvisible` | src/bifrost_plugin/ib_gateway/connection.py:206-208 | inserting a maintenance pause anywhere changes no later failure count |
| `Backoff.FailuresSince` | src/bifrost_plugin/ib_gateway/connection.py:204-219 | the count behind a sleep is the number of failed connects since the last success |
| `Backoff.NapIs` | src/bifrost_plugin/ib_gateway/connection.py:205-219 | what each turn sleeps: 2 s in maintenance, 1 s while connected, nothing after connecting, and otherwise the backoff of the failures since the last success |
| `Backoff.ReconnectsIs` | src/bifrost_plugin/ib_gateway/connection.py:213-216 | the reconnects counted are the turns that connected |
| `OnDemand.Registry.Register` | src/bifrost_plugin/ib_gateway/live.py:455-458 | the keys and their heartbeat are added; nothing else changes |
| `OnDemand.RegisterKeepsOthers` | src/bifrost_plugin/ib_gateway/live.py:455-458 | a registration leaves every other member and heartbeat alone |
| `OnDemand.Registry.Classify` | src/bifrost_plugin/ib_gateway/on_demand.py:45-61 | each key of a member lands in the list its heartbeat says, and canonical members are listed once |
| `OnDemand.Registry.ListFresh` | src/bifrost_plugin/ib_gateway/on_demand.py:22-71 | the listing is sorted and holds exactly the fresh keys; what is pruned, for every combination of failing Redis calls |
| `OnDemand.ListedIff` | src/bifrost_plugin/ib_gateway/on_demand.py:47-61 | exactly what is listed: normal forms of members with a positive heartbeat no older than max age |
| `OnDemand.KeptIff` | src/bifrost_plugin/ib_gateway/on_demand.py:32-68 | for any Redis failures, exactly which members and heartbeats remain |
| `OnDemand.ListingIsDetermined` | src/bifrost_plugin/ib_gateway/on_demand.py:70-71 | the fresh set determines the list, so equal fresh sets give equal listings |
| `OnDemand.PruneKeepsExactlyTheFresh` | src/bifrost_plugin/ib_gateway/on_demand.py:45-71 | canonical members: exactly the fresh members and their heartbeats stay, a second listing removes nothing, a later one finds a subset |
| `OnDemand.PruneIsCompleteIff` | src/bifrost_plugin/ib_gateway/on_demand.py:47-68 | only fresh members are left exactly when every other member was stored in canonical form |
| `OnDemand.FreshMemberSurvivesIff` | src/bifrost_plugin/ib_gateway/on_demand.py:32-68 | for any Redis failures: a fresh member is listed exactly when SMEMBERS and HGETALL succeed, and kept exactly when HGETALL succeeds or nothing can be removed |
| `OnDemand.FreshMemberIsLost` | src/bifrost_plugin/ib_gateway/on_demand.py:39-43 | one failed HGETALL removes a symbol registered that very moment |
| `OnDemand.StaleSpellingIsKept` | src/bifrost_plugin/ib_gateway/on_demand.py:47-65 | a member in lower case without a heartbeat is neither listed nor removed |
| `OnDemand.KeysAreIdempotent` | src/bifrost_plugin/ib_gateway/on_demand.py:48 | normalising twice changes nothing, for both spellings in use |
| `OnDemand.RegisteredIsFresh` | src/bifrost_plugin/ib_gateway/on_demand_opt.py:91-92 | what was registered within max age is in the next fresh set |
| `OnDemand.BuildDesired` | src/bifrost_plugin/ib_gateway/on_demand.py:74-104 | the early-exit loop returns the first max(cap, distinct watchlist) elements of the deduplicated concatenation, and the truncation flag |
| `CappedMerge.MergeSize` | src/bifrost_plugin/ib_gateway/on_demand.py:84-104 | the result has as many symbols as there are, up to the larger of the cap and the watchlist's own number; truncated says exactly that there are more |
| `CappedMerge.LeftOutOnlyIfFull` | src/bifrost_plugin/ib_gateway/on_demand.py:93-104 | a symbol is left out only if max(1, max_stream_stk) are taken already; if all fit, all are taken and nothing is truncated |
| `CappedMerge.MergeTakesTheFirst` | src/bifrost_plugin/ib_gateway/on_demand.py:84-104 | the symbols taken are those whose first entries come first, watchlist before on-demand, and they stand in that order |
| `OnDemand.DesiredFacts` | src/bifrost_plugin/ib_gateway/on_demand.py:80-104 | no symbol twice, the whole watchlist as a prefix, nothing from elsewhere |
| `OnDemand.TruncatedIff` | src/bifrost_plugin/ib_gateway/on_demand.py:93-104 | `truncated` is true exactly when some on-demand symbol was left out |
| `OnDemand.CapHoldsIff` | src/bifrost_plugin/ib_gateway/on_demand.py:84-104 | the result respects the cap exactly when the deduplicated watchlist does |
| `OnDemand.TwoExceedOne` | src/bifrost_plugin/ib_gateway/on_demand.py:84-104 | any two distinct watchlist symbols exceed a cap of one |
| `OnDemand.CapIsExceeded` | src/bifrost_plugin/ib_gateway/on_demand.py:84-104 | two actual ticker symbols do |
| `OptKey.FieldsOfPrint` | src/bifrost_plugin/ib_gateway/live.py:445-449 | clean fields print to a text that splits back into the same five fields |
| `OptKey.FieldsAreClean` | src/bifrost_plugin/ib_gateway/on_demand_opt.py:29-39 | split and stripped fields hold no separator and no outer space |
| `OptKey.ParsesIff` | src/bifrost_plugin/ib_gateway/on_demand_opt.py:29-48 | exactly which keys parse, field by field, and to what |
| `OptKey.CanonicalAllIff` | src/bifrost_plugin/ib_gateway/live.py:440-449 | exactly the canonical texts of the keys that parse are registered |
| `OptKey.RoundTrip` | src/bifrost_plugin/ib_gateway/on_demand_opt.py:22-48 | for every key that parses, the canonical text parses to the same contract, is its own canonical text, and is what a listing reads back |
| `Text.StripRemovesOnlySpace` | src/bifrost_plugin/ib_gateway/on_demand_opt.py:29 | stripping removes spaces at the two ends and nothing else |
| `Text.JoinOfSplit` | src/bifrost_plugin/ib_gateway/on_demand_opt.py:32 | splitting loses nothing |
| `OptKey.CanonicalIsInjective` | src/bifrost_plugin/ib_gateway/live.py:438-449 | different contracts never share a registered key |
| `OptKey.RegisterOnDemandOpt` | src/bifrost_plugin/ib_gateway/live.py:438-460 | exactly the canonical texts of the keys that parse are registered, all with one heartbeat |
| `OptKey.RegisteredKeyIsListed` | src/bifrost_plugin/ib_gateway/live.py:197-203 | a parsing key sent by the RPC is fresh for the refresh that follows |
| `Reconcile.MarketData.CancelUndesired` | src/bifrost_plugin/ib_gateway/live.py:414-424 | each dropped symbol is cancelled once, under its own contract; failures leave its stream open |
| `Reconcile.MarketData.RequestMissing` | src/bifrost_plugin/ib_gateway/live.py:426-434 | table, streams and calls after the requests, failures included |
| `Reconcile.MarketData.ReconcileHost` | src/bifrost_plugin/ib_gateway/live.py:388-436 | when a pass is throttled nothing changes; otherwise listing, merge, cancels and requests compose, and exactly the calls named are made |
| `Reconcile.CleanPass` | src/bifrost_plugin/ib_gateway/live.py:414-434 | from a matching table with no failures: table = open streams = desired, and streams already wanted are untouched |
| `Reconcile.PassAsksMissing` | src/bifrost_plugin/ib_gateway/live.py:426-434 | a pass asks for exactly desired minus held; the table ends as desired minus the failed requests |
| `Reconcile.FailedRequestsAreRetried` | src/bifrost_plugin/ib_gateway/live.py:426-434 | the next pass cancels nothing and asks for exactly the failed ones |
| `Reconcile.StreamsAreWatchedOrFresh` | src/bifrost_plugin/ib_gateway/live.py:398-434 | every symbol in the table after a pass is a watchlist symbol or was fresh on demand |
| `Reconcile.AllStreamingIff` | src/bifrost_plugin/ib_gateway/live.py:426-432 | from any table: every desired symbol streams after a pass exactly when every wanted ticker already held was streaming and no request for a missing one failed |
| `Reconcile.PassKeepsLedgerIff` | src/bifrost_plugin/ib_gateway/live.py:417-434 | from a matching table a pass ends in a matching table exactly when none of its cancels failed |
| `Reconcile.RunsKeepLedgerIff` | src/bifrost_plugin/ib_gateway/live.py:290-342 | over whole runs of passes, lost sessions and table clears: table and streams agree after every move exactly when no cancel failed and the table was empty whenever the session was lost unseen or the table cleared on a living session |
| `Reconcile.LostStreamStaysLost` | src/bifrost_plugin/ib_gateway/live.py:676-681 | a stream lost while another task noticed first is requested by no later pass |
| `Reconcile.StreamsCanBeLost` | src/bifrost_plugin/ib_gateway/live.py:290-296 | such a run exists for every symbol |
| `Reconcile.OrphanStaysOpen` | src/bifrost_plugin/ib_gateway/live.py:339-342 | a stream the table no longer holds is closed by no later pass or table clear on that session |
| `Reconcile.ClearingLeaksAStream` | src/bifrost_plugin/ib_gateway/live.py:339-342 | a run in which a table clear leaves one symbol streaming twice, the table knowing one of the two |
| `SelfHeal.Ladder.MaybeSelfHeal` | src/bifrost_plugin/ib_gateway/live.py:572-650 | one check of the ladder: new streak, new cooldown, and the action taken |
| `SelfHeal.LadderActsIff` | src/bifrost_plugin/ib_gateway/live.py:572-650 | check i of a run soft-reconnects exactly when both switches are on, the host is up, the last cooldown is over and the snapshot is older than stale_sec; it exits exactly when that makes max_before_rollout such checks since the last fresh one and the re-read fails or is still old |
| `SelfHeal.StateFollowsChecks` | src/bifrost_plugin/ib_gateway/live.py:587-604 | the streak is the number of due stale checks since the last fresh one, and the cooldown the one the last due check began, both told from the checks alone |
| `SelfHeal.QuietAfter` | src/bifrost_plugin/ib_gateway/live.py:580-604 | after a due check the ladder is quiet for one cooldown, and no longer |
| `SelfHeal.Spacing` | src/bifrost_plugin/ib_gateway/live.py:580-581 | consecutive soft reconnects are at least one cooldown apart |
| `SelfHeal.StreakEvidence` | src/bifrost_plugin/ib_gateway/live.py:587-604 | a positive streak is the number of soft reconnects since its first, with no fresh observation since and one cooldown for each |
| `SelfHeal.StreakIsCountSince` | src/bifrost_plugin/ib_gateway/live.py:587-602 | the streak counts the reconnects since the last fresh observation made outside cooldown, and nothing else moves it |
| `SelfHeal.ExitEvidence` | src/bifrost_plugin/ib_gateway/live.py:627-650 | a pod exit has at least max_before_rollout reconnects behind it, spanning (count - 1) cooldowns with no fresh observation between |
| `SelfHeal.TimesIsProduct` | src/bifrost_plugin/ib_gateway/live.py:603-604 | the n cooldowns spoken of are n times the cooldown |
| `SelfHeal.ExitIff` | src/bifrost_plugin/ib_gateway/live.py:627-633 | a due ladder exits exactly when the streak is long enough and the re-read fails or nothing recent was stored |
| `SelfHeal.ExitAlthoughRecovered` | src/bifrost_plugin/ib_gateway/live.py:631-633 | a failed re-read ends the process on its first check although a recent snapshot is stored |
| `SelfHeal.NoExitAfterRecovery` | src/bifrost_plugin/ib_gateway/live.py:554-570 | with a working re-read, one recent stored snapshot prevents the exit |
| `OptCache.Loop.RefreshOnce` | src/bifrost_plugin/ib_gateway/live.py:481-528 | for any contracts, timeouts and unparsable keys no two heartbeats are further apart than the bound |
| `OptCache.Loop.Run` | src/bifrost_plugin/ib_gateway/live.py:536-552 | the same over any number of iterations of the loop |
| `OptCache.RecentBeat` | src/bifrost_plugin/ib_gateway/live.py:536-552 | at any moment of the loop's life some heartbeat is at most the bound old |
| `OptCache.Watchdog.CheckLiveness` | src/bifrost_plugin/ib_gateway/live.py:652-669 | the age, when it warns, and the time it remembers |
| `OptCache.WarnsIff` | src/bifrost_plugin/ib_gateway/live.py:659-663 | a check warns exactly when the heartbeat is older than the limit and the last warning, if any, is at least one limit ago |
| `OptCache.NeverCriesWolf` | src/bifrost_plugin/ib_gateway/live.py:652-669 | a limit at or above max(5, pacing + max(timeout, sleep)) never warns while the loop lives |
| `OptCache.WarningsAreSpaced` | src/bifrost_plugin/ib_gateway/live.py:662-663 | any two warnings of a run are at least one limit apart |
| `OneShot.Streams.PollTicker` | src/bifrost_plugin/ib_gateway/ib_ops.py:380-408 | polling stops at the first usable read or at the await that fails, and yields that read's quote |
| `OneShot.QuoteIs` | src/bifrost_plugin/ib_gateway/ib_ops.py:383-408 | what one read shows: the positive prices, the middle of bid and ask if both are, else the last; nothing while none is positive |
| `OneShot.ResultIs` | src/bifrost_plugin/ib_gateway/ib_ops.py:376-411 | the quote of a call is that of the first of at most four reads that shows a price, unless an await ends the call before; without a session, a qualified contract or an accepted request there is none |
| `OneShot.Streams.FetchOptionQuote` | src/bifrost_plugin/ib_gateway/ib_ops.py:354-420 | returning, raising or cancelled at any await, the call leaves the open streams as they would be had it never run |
| `OneShot.TouchForeign` | src/bifrost_plugin/ib_gateway/ib_ops.py:412-418 | what other tasks do commutes with the call's own stream |
| `OneShot.RefreshAll` | src/bifrost_plugin/ib_gateway/live.py:484-528 | a whole refresh is balanced too, even across reconnects of the host |
| `OrderReads.OrderReader.VisitSlots` | src/bifrost_plugin/ib_gateway/live.py:252-273 | the loop over the slots fails exactly when the round fails, and otherwise returns that round |
| `OrderReads.OrderReader.RefreshOrderReads` | src/bifrost_plugin/ib_gateway/live.py:243-281 | both caches and both times after a call, throttled, failed, empty or complete |
| `OrderReads.CallPublishesIff` | src/bifrost_plugin/ib_gateway/live.py:249-281 | a due call publishes both lists with its own time exactly if some slot is connected and no read of a connected slot fails; otherwise it leaves neither; a call within the minute changes nothing |
| `OrderReads.RoundIs` | src/bifrost_plugin/ib_gateway/live.py:255-281 | a round told from its visits: failed, no slot, or the whole of both reads |
| `OrderReads.RoundIsWhole` | src/bifrost_plugin/ib_gateway/live.py:255-281 | a book exists exactly when some slot was connected and no read failed, and is the concatenation of what every connected slot's reads returned |
| `OrderReads.BookIsCompleteIff` | src/bifrost_plugin/ib_gateway/ib_ops.py:152-164 | a book holds every order of every connected slot exactly when each was alive at its orders read or had none |
| `OrderReads.BookCanBePartial` | src/bifrost_plugin/ib_gateway/live.py:256-266 | a round whose book misses a connected slot's order |
| `OrderReads.CacheIsOneRound` | src/bifrost_plugin/ib_gateway/live.py:354-358 | after any run both caches are absent or both are one single round, and no later call that could replace it was due |
| `Snapshot.FetchRows` | src/bifrost_plugin/ib_gateway/ib_ops.py:63-107 | one row per managed account with its own positions, or none recorded if the read failed |
| `Snapshot.RowIs` | src/bifrost_plugin/ib_gateway/ib_ops.py:97-105 | positions are missing exactly if the read failed, and otherwise are all the account's own |
| `Snapshot.HeldInOrder` | src/bifrost_plugin/ib_gateway/ib_ops.py:104 | of two positions of an account, the one read first comes first |
| `Snapshot.PositionsConserved` | src/bifrost_plugin/ib_gateway/ib_ops.py:103-105 | with distinct accounts the rows' positions are, as a multiset, exactly those of managed accounts |
| `Snapshot.MergeSlots` | src/bifrost_plugin/ib_gateway/live.py:302-340 | merged entries, and the ghost slots that are then disconnected |
| `Snapshot.GhostsAre` | src/bifrost_plugin/ib_gateway/live.py:308-340 | the slots disconnected are the connected ones whose session is dead, whose read timed out, or which returned no row |
| `Snapshot.AccountsAre` | src/bifrost_plugin/ib_gateway/live.py:305-338 | the accounts shown are those of the rows of connected slots with a living session |
| `Snapshot.AddRowsFacts` | src/bifrost_plugin/ib_gateway/live.py:333-338 | adding a slot's rows keeps accounts unique, keeps what was there, and misses no account |
| `Snapshot.MergeFacts` | src/bifrost_plugin/ib_gateway/live.py:302-338 | every offered account appears once, under the first slot in order that offers it; ghosts supply nothing |
| `Protocol.AllowlistsPartition` | src/bifrost_plugin/ib_gateway/protocol.py:12-39 | every op is in exactly one of the two allowlists, and only ops are |
| `Protocol.ParsedOpIsKnown` | src/bifrost_plugin/ib_gateway/protocol.py:72-114 | a parsed command has a request id and a known op |
| `Operator.Consumer.Publish` | src/bifrost_plugin/ib_gateway/operator.py:121-126 | the result, its error envelope, or nothing is stored, once |
| `Operator.Consumer.ProcessEntry` | src/bifrost_plugin/ib_gateway/operator.py:92-127 | the effects of one entry in order (judge or handle, write, acknowledge) and the stored result |
| `OperatorOutcomes.WellFormedIff` | src/bifrost_plugin/ib_gateway/protocol.py:72-114 | exactly which entries are well-formed, and what a well-formed one says |
| `OperatorOutcomes.JudgeDecides` | src/bifrost_plugin/ib_gateway/operator.py:104-118 | late entries expire, connection ops off the production stream are refused, every other well-formed entry is handled; late means the time is past the entry's own deadline |
| `OperatorOutcomes.WriteAnswers` | src/bifrost_plugin/ib_gateway/operator.py:109-126 | what is stored, case by case: ok, error and request id of the answer, the error that replaces an answer over 512000 bytes or unencodable, or nothing |
| `OperatorOutcomes.RunHasOutcomes` | src/bifrost_plugin/ib_gateway/operator.py:81-127 | in every run the trace is, entry after entry, exactly these outcomes, and then the beginning of the one in hand |
| `OperatorOutcomes.HandlerIsCalledIff` | src/bifrost_plugin/ib_gateway/operator.py:104-116 | the step that judges an entry calls the handler exactly if it is well-formed, not past its deadline, and allowed on its stream |
| `Operator.ResultIff` | src/bifrost_plugin/ib_gateway/operator.py:109-126 | a well-formed command gets a result exactly when its envelope or its error envelope fits, under its own request id |
| `Operator.OnlyProdHandlesConnectionOps` | src/bifrost_plugin/ib_gateway/operator.py:87-89 | a connection op is handled from the production stream only |
| `OperatorRuns.RunIsSequential` | src/bifrost_plugin/ib_gateway/operator.py:81-127 | every run's effects are the finished entries processed one after the other plus a prefix of the one in hand: result before ack, nothing else |
| `OperatorRuns.EveryEntryOnce` | src/bifrost_plugin/ib_gateway/operator.py:58-84 | between two creations of a stream's group, what is finished or in hand is exactly what was delivered, in order; between batches nothing is unacknowledged |
| `OperatorRuns.AtMostOncePerEpoch` | src/bifrost_plugin/ib_gateway/operator.py:81-84 | no entry is finished twice in one life of its stream's group, whatever happens to the other groups |
| `OperatorRuns.DeliveredInOrder` | src/bifrost_plugin/ib_gateway/operator.py:58-84 | in every run, what is finished or in hand is on each stream in stream order, life after life of its group, no key twice |
| `OperatorCounts.TraceCounts` | src/bifrost_plugin/ib_gateway/operator.py:92-127 | in every run the acknowledgements in the trace are the finished entries, and the entries judged are those and the one in progress, in this order |
| `OperatorCounts.AtMostOnce` | src/bifrost_plugin/ib_gateway/operator.py:92-127 | no entry is judged, handled or acknowledged twice in one life of its group |
| `OperatorCounts.LifeFinishesIff` | src/bifrost_plugin/ib_gateway/operator.py:34-41 | every life of a group but the first finishes exactly the stream's first entries, up to what it delivers next when idle |
| `OperatorCounts.FinishedTwiceIff` | src/bifrost_plugin/ib_gateway/operator.py:69-72 | an entry is finished twice exactly when one life of its group finished it and a later one got past it |
| `OperatorCounts.HandledAgainIff` | src/bifrost_plugin/ib_gateway/operator.py:69-72 | with the consumer idle, an entry finished in an earlier life was finished again in this one exactly if it lies below what is delivered next |
| `OperatorRuns.AccountedStep` | src/bifrost_plugin/ib_gateway/operator.py:58-84 | every step, group re-creation of any subset of streams included, keeps the accounting invariant |
| `OperatorRuns.RecreationHandlesAgain` | src/bifrost_plugin/ib_gateway/operator.py:34-41 | a concrete run in which an entry is handled before and after its group is created again |
| `OperatorIsolation.Noninterference` | src/bifrost_plugin/ib_gateway/operator.py:81-116 | every run has a counterpart with the dev and stg streams emptied in which exactly the same connection commands reach the handler |
| `OperatorIsolation.StepProjects` | src/bifrost_plugin/ib_gateway/operator.py:58-127 | each step is mirrored by the production-only run or invisible to it |
| `OperatorCommands.CommandsOfEntry` | src/bifrost_plugin/ib_gateway/operator.py:104-118 | an entry hands a connection command over exactly when it is well-formed, unexpired and on the production stream |
| `OperatorCommands.CommandsAreTheProdStream` | src/bifrost_plugin/ib_gateway/operator.py:81-118 | at every moment of every run, the connection commands handled are those of the production entries finished, life after life of its group, and of the one in hand |
| `OperatorCommands.LifeIssues` | src/bifrost_plugin/ib_gateway/operator.py:58-84 | one life's commands are the well-formed, unexpired ones of a stretch of the production stream in stream order, from its first entry in every life but the first, up to what is delivered next when idle |

`AwaitPointAgreement` is also why the guards on a missing host session inside the reconcile pass
(src/bifrost_plugin/ib_gateway/live.py, lines 419 and 427) cannot fire when the market loop calls it: line 362
has just seen CONNECTED and there is no await in between. Reconcile therefore does not model them.

## Left out

- ib_insync, asyncio, sockets and the Redis client: outcomes of calls are parameters, awaits are step boundaries, and `ib.disconnect()` is taken to leave the session dead even when it raises.
- Shutdown and cancellation by signals, and a `factory()` that raises; the only cancellation kept is the timeout around an option one-shot.
- The mock gateway, health and self-heal status hashes, tick publishing, log filters, settings loading, manifests and scripts.
- Floating point and Unicode: times and prices are reals, case and space rules are ASCII, and number parsing is a parameter; heartbeats that parse to NaN or infinity are not modelled.
- Event-loop delays: in OptCache an await ends when its timer says, so the heartbeat bound leaves out scheduling lag and the synchronous work between awaits.
- Partial failure inside a non-transactional registration pipeline, and registrations that interleave with a listing.
- A Redis failure while writing a result or acknowledging, which ends the operator loop; and trimming or deletion of a stream's entries.
- Exceptions out of an account fetch, which abort that iteration of the market loop.
- A cached option listing longer than `opt_cache_max_contracts` drops its tail: RegisteredKeyIsListed speaks of the fresh listing before that cut.
- The remaining RPC handlers (bars, expirations, option snapshots, underlying price) and the formatting of orders, executions and positions.
- No claim that `_maintenance` agrees with the MAINTENANCE state.
- No claim of a 512,000-byte limit on stored results: the limit is checked on the compact encoding and another encoding is stored.
- Connection.SlotConnection.ConnectSlot: is scripted for one task; the other tasks appear as events, and ConnectRuns and CallRuns show that the scripts are exactly the calls of the machine in SlotRuns.
- OneShot.Streams.FetchOptionQuote: assumes `cancelMktData` succeeds and that contract objects are not shared between calls.
