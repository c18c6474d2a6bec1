# A verified model of the NymVPN daemon's small state machines

This project models, in Dafny, the components of the OpenWrt NymVPN daemon that keep
state of their own: the ad-block toggles, the gateway cache, the bandwidth controller,
the connection monitor, the publication of the account state, the clock bootstrap, the
gateway blacklist and the text form of a mixnet recipient. `dafny verify dfyconfig.toml`
checks the whole project.

How the components are modelled:

- **Ad-block toggles** (`AdblockToggles.dfy`, `AdblockHistory.dfy`). A protocol between any number of clicks,
  their runs, the startup restore and its fast path. Each atomic action is a `Step`:
  `toggle()` is two of them (take a generation, notify), `superseded()` is three
  (register, compare, park or wake). A run is any sequence of enabled steps. `Inv` is
  what every step keeps; the theorems speak of every reachable state, and in
  `AdblockHistory.dfy` of the steps that led there. The class `Toggles` performs the same
  actions in place.
- **Gateway cache** (`GatewayTrace.dfy`, `GatewayLists.dfy`, `GatewayCache.dfy`). The
  class has the fields of the program and one method per handler. A ghost trace records when each fetch began, with which client,
  and which result was stored. `Valid()` says the maps hold exactly what the trace says.
  Connectivity, the clock and the answers of the directory are parameters.
- **Bandwidth controller** (`DepletionRate.dfy`, `QueryHealth.dfy`,
  `BandwidthSession.dfy`, `BandwidthController.dfy`). Every await is a parameter that may
  be "dropped", which is how a cancelled check ends. A ghost history of operations is the reference for what is
  recorded and cancelled, and `Next` for what a turn leads to.
- **Connection monitor** (`ConnectionMonitor.dfy`). The event log is a function of the
  probes that ended; pacing is a theorem about such histories, detection latency one
  about every monitor whose probes and timers are on time.
- **Account state** (`AccountState.dfy`). The controller's two publishes and a waiting
  connect's reads interleave freely. `next_validation` and the half-hour freshness are
  those of `nym-vpn-account-controller/src/state_machine/mod.rs`. `Drive` runs any
  schedule on the channels, as it does for the toggles.
- **Clock bootstrap** (`Sntp.dfy`, `ClockBootstrap.dfy`). SNTP packets byte by byte, the choice of
  the first usable reply while time passes, and the server list. The era rule is that of
  section 3 of RFC 4330.
- **Blacklist** (`BlacklistedGateways.dfy`) and **recipient** (`Recipient.dfy`).

Results that are not what one might expect:

- `checks_worked` promises that every side answered and that what failed had worked
  earlier. `Run` returns that exactly unless one of two things happened
  (`WorkedAsPromisedExactly`). If a side never answered but what failed had worked, it
  returns more; after a first turn in which nothing is dropped that can come about
  exactly if a side did not answer in it (`MisleadsExactly`, `SilentSideWorked`). If the
  report that upgrade mode has ended fails after an earlier one succeeded, it returns
  less (`ReportForgotten`); that needs an answer that mentions upgrade mode.
- The clock bootstrap is documented as forward only. It compares replies with the time
  read before the lookups, while the clock goes on. The step is forward whatever happens
  within the timeouts exactly if the clock starts 48 s or more before the build
  (`ForwardExactly`); `SetsClockBack` is a case where it is not.
- A background fetch that began before an inline one of the same list, and joins after
  it, replaces the newer list by the older (`OlderListReplacesNewer`). Call the cache in
  order if every list is the newest stored and no fetch in flight is behind one stored.
  A turn keeps it in order exactly if it fetches inline no list that is being fetched in
  the background (`Handle`), and so does a run of such turns (`Run`).
- In `update_dynamic_check_interval` the lower-bound branch can never be taken, and the
  last branch only with a period of three seconds or less
  (`LowerBoundUnreachable`, `CheckCountReachable`); in the daemon the period is always
  5 s or 30 s.
- The SNTP era pivot departs from RFC 4330 exactly for stamps the RFC reads as 1968 and
  1969 (`AgreesWithRfcExactly`).

## Model

| member | source | states |
|---|---|---|
| AdblockToggles.StepKeepsInv | nym-vpn-core/crates/nym-vpnd/src/adblocker.rs:145-217 | every action of every run keeps: one lock holder, paired begin/end of effects, non-decreasing generations, one effect per click, no lost wake-up, restore backoff |
| AdblockToggles.EffectsSerializedInOrder | nym-vpn-core/crates/nym-vpnd/src/adblocker.rs:172-195 | in every interleaving installs and removes never overlap and a later one is never for an older click |
| AdblockToggles.LastToggleWins | nym-vpn-core/crates/nym-vpnd/src/adblocker.rs:145-236 | once all runs have finished, the newest click was not superseded, and if it succeeded the last effect on the system is its install or remove |
| AdblockToggles.SupersededToggleDidNothing | nym-vpn-core/crates/nym-vpnd/src/adblocker.rs:181-191 | only a newer click supersedes, and a superseded click left the system alone |
| AdblockToggles.NewerClickWakesParkedRun | nym-vpn-core/crates/nym-vpnd/src/adblocker.rs:149-170 | every newer toggle that got past its notify has woken a run parked beside its download, whatever later toggles are doing |
| AdblockToggles.StaleDownloadIsAbandoned | nym-vpn-core/crates/nym-vpnd/src/adblocker.rs:158-192 | once some newer toggle has notified, a download is abandoned in at most three steps of its own |
| AdblockToggles.NoDeadlock | nym-vpn-core/crates/nym-vpnd/src/adblocker.rs:149-217 | while a run is unfinished, some action of some run is possible |
| AdblockToggles.EveryStateCanSettle | nym-vpn-core/crates/nym-vpnd/src/adblocker.rs:172-217 | from every reachable state all runs can finish without another click, leaving the system as the newest click asked unless that one has already failed |
| AdblockToggles.EveryRunSettles | nym-vpn-core/crates/nym-vpnd/src/adblocker.rs:149-217 | from every reachable state, whatever order runs take their turns in, without another click and with nothing failing: at most fourteen actions per run, wake-ups included, and when none is left all have finished with the system as the newest click asked, unless that one had already failed |
| AdblockToggles.BackoffClosedForm | nym-vpn-core/crates/nym-vpnd/src/adblocker.rs:214-215 | the doubled and capped delay is 15 s times two to the number of earlier failures, at most 300 s |
| AdblockToggles.RestoreBacksOff | nym-vpn-core/crates/nym-vpnd/src/adblocker.rs:197-217 | in every interleaving a sleeping task is a restore that failed, waiting exactly that long |
| AdblockHistory.StartsItsRun | nym-vpn-core/crates/nym-vpnd/src/adblocker.rs:149-157 | for every past: a click starts a run for what was clicked, with the next generation; the restore and its fast path start theirs with none |
| AdblockHistory.EffectHasItsReason | nym-vpn-core/crates/nym-vpnd/src/adblocker.rs:185-194 | for every past: enabling and restoring install, disabling removes, the fast path redirects; an install comes right after a download of the same run that succeeded |
| AdblockHistory.OnlyEffectsAreLogged | nym-vpn-core/crates/nym-vpnd/src/adblocker.rs:185-195 | an effect that ends is logged with its outcome, and no other step changes the system |
| AdblockHistory.FailedDownloadDoesNothing | nym-vpn-core/crates/nym-vpnd/src/adblocker.rs:189-215 | a run whose download fails has begun no effect in that turn and holds no lock; a click's run has failed, the restore sleeps with one failure more |
| AdblockHistory.FailureStands | nym-vpn-core/crates/nym-vpnd/src/adblocker.rs:197-217 | a failed run stays so until its next step; the restore never gives up, and sleeps 15 s doubled per earlier failure, at most 300 s |
| AdblockHistory.DoneExactly | nym-vpn-core/crates/nym-vpnd/src/adblocker.rs:185-195 | a run is done exactly if its effect ended well, or it is the fast path |
| AdblockHistory.StepsAsideExactly | nym-vpn-core/crates/nym-vpnd/src/adblocker.rs:181-184 | under the lock a run steps aside exactly if there was a click since it started; the fast path never does |
| AdblockHistory.LastClickWins | nym-vpn-core/crates/nym-vpnd/src/adblocker.rs:145-236 | for every past: with all runs finished the run of the last click has failed, or the last effect is the install or remove that was clicked |
| AdblockToggles.Toggles.TakeGeneration | nym-vpn-core/crates/nym-vpnd/src/adblocker.rs:149-153 | first half of a toggle: the next generation, keeping the invariant |
| AdblockToggles.Toggles.NotifyWaiters | nym-vpn-core/crates/nym-vpnd/src/adblocker.rs:154-156 | second half of a toggle: every registered waiter is woken |
| AdblockToggles.Toggles.SpawnStartup | nym-vpn-core/crates/nym-vpnd/src/adblocker.rs:247-263 | the restore or its fast path starts before the first click |
| AdblockToggles.Toggles.AcquireLock | nym-vpn-core/crates/nym-vpnd/src/adblocker.rs:180 | a queued run takes the free lock, keeping the invariant |
| AdblockToggles.Toggles.Compare | nym-vpn-core/crates/nym-vpnd/src/adblocker.rs:181-184 | under the lock, a run continues only if its generation is current |
| AdblockToggles.Toggles.BeginDownload | nym-vpn-core/crates/nym-vpnd/src/adblocker.rs:189-192 | an enabling run under the lock starts its download beside the watch for newer clicks |
| AdblockToggles.Toggles.PollSuperseded | nym-vpn-core/crates/nym-vpnd/src/adblocker.rs:159-170 | one action of the `superseded` loop: register before comparing, then park or return |
| AdblockToggles.Toggles.DownloadReturned | nym-vpn-core/crates/nym-vpnd/src/adblocker.rs:189-193 | a finished download leads to the install, a failed one ends the run |
| AdblockToggles.Toggles.StartEffect | nym-vpn-core/crates/nym-vpnd/src/adblocker.rs:185-194 | an install or remove begins, under the lock |
| AdblockToggles.Toggles.EffectReturned | nym-vpn-core/crates/nym-vpnd/src/adblocker.rs:185-195 | the effect ends and the lock is dropped |
| AdblockToggles.Toggles.RetryRestore | nym-vpn-core/crates/nym-vpnd/src/adblocker.rs:208-216 | a restore that slept queues again with a doubled delay |
| AdblockToggles.Toggles.Drive | nym-vpn-core/crates/nym-vpnd/src/adblocker.rs:145-236 | for any schedule of actions on the shared object: each possible one is taken, effects never overlap or go back to an older click, and with all runs finished the last effect is the newest click's, if that succeeded |
| GatewayTrace.LiveFetchIsCurrent | nym-vpn-core/crates/nym-gateway-directory/src/gateway_cache.rs:374-395 | a fetch nothing invalidated was begun by a client with the present thresholds and after the last clear |
| GatewayTrace.ServedListIsCurrent | nym-vpn-core/crates/nym-gateway-directory/src/gateway_cache.rs:374-395 | the list to serve was returned by such a fetch of that list, and none was stored for it later |
| GatewayTrace.NewestBeganLast | nym-vpn-core/crates/nym-gateway-directory/src/gateway_cache.rs:454-584 | `NewestStored` began last of the live fetches of a list that were stored |
| GatewayTrace.StoredOvertakesOlder | nym-vpn-core/crates/nym-gateway-directory/src/gateway_cache.rs:454-584 | storing a list overtakes exactly the fetches of it that began earlier, and the list served is then the newest exactly if none that began later had been stored |
| GatewayTrace.ServedIsNewestExactly | nym-vpn-core/crates/nym-gateway-directory/src/gateway_cache.rs:454-584 | over any trace, the list served is from the last-begun stored fetch exactly if that fetch was not overtaken when it was stored |
| GatewayCache.CachedListProvenance | nym-vpn-core/crates/nym-gateway-directory/src/gateway_cache.rs:374-395 | in every state a cached list is what a fetch with the present thresholds, begun after the last clear, returned |
| GatewayCache.BackgroundFetchProvenance | nym-vpn-core/crates/nym-gateway-directory/src/gateway_cache.rs:412-488 | background set and `refreshing` correspond one to one with distinct types, and each fetch in flight has the present thresholds and began after the last clear |
| GatewayCache.OlderListReplacesNewer | nym-vpn-core/crates/nym-gateway-directory/src/gateway_cache.rs:454-584 | a run of the cache in which a background fetch joins after a refresh overtook it, and its older list is served with the later time |
| GatewayCache.GatewayCache.ReplaceGatewayClient | nym-vpn-core/crates/nym-gateway-directory/src/gateway_cache.rs:374-386 | other thresholds drop every list and every fetch in flight; equal ones keep them |
| GatewayCache.GatewayCache.ClearCache | nym-vpn-core/crates/nym-gateway-directory/src/gateway_cache.rs:388-395 | drops every list and fetch and re-arms the initial refresh |
| GatewayCache.GatewayCache.CancelBackgroundRefreshes | nym-vpn-core/crates/nym-gateway-directory/src/gateway_cache.rs:484-488 | no background fetch is left, in the set or in `refreshing` |
| GatewayCache.GatewayCache.SpawnBackgroundRefreshes | nym-vpn-core/crates/nym-gateway-directory/src/gateway_cache.rs:430-452 | starts one fetch for each type named that has none, with the client in place, and none when offline; two fetches of a type run at once only if one was named twice |
| GatewayCache.GatewayCache.StoreBackgroundRefresh | nym-vpn-core/crates/nym-gateway-directory/src/gateway_cache.rs:454-480 | a joined task is always attributed, to the type it was started for; a failed one only clears its entry; the list is the newest exactly if the fetch was not overtaken |
| GatewayCache.GatewayCache.FetchGatewaysInline | nym-vpn-core/crates/nym-gateway-directory/src/gateway_cache.rs:557-584 | refused offline; otherwise the answer, stored if it is a list |
| GatewayCache.GatewayCache.RefreshGateways | nym-vpn-core/crates/nym-gateway-directory/src/gateway_cache.rs:535-553 | by the age of the list: served, served with one background fetch, or fetched inline |
| GatewayCache.GatewayCache.LookupGateways | nym-vpn-core/crates/nym-gateway-directory/src/gateway_cache.rs:586-606 | succeeds exactly if the list is cached afterwards and returns it; under five minutes no fetch; fetched inline exactly if nothing or a list of thirty minutes or more is cached |
| GatewayLists.StaleInUse | nym-vpn-core/crates/nym-gateway-directory/src/gateway_cache.rs:412-420 | the types that are stale and were looked up in the last half hour, each once |
| GatewayCache.GatewayCache.RefreshRecentlyUsed | nym-vpn-core/crates/nym-gateway-directory/src/gateway_cache.rs:412-426 | the periodic check starts a fetch for exactly those types without one, and all of them are being fetched afterwards if online |
| GatewayLists.StaleTypes | nym-vpn-core/crates/nym-gateway-directory/src/gateway_cache.rs:406-410 | exactly the types whose list is missing or five minutes old |
| GatewayCache.GatewayCache.Refresh | nym-vpn-core/crates/nym-gateway-directory/src/gateway_cache.rs:490-525 | fetches the types together; each list that comes replaces the old one, and exactly the background fetches of the types that came are overtaken |
| GatewayLists.MergedByType | nym-vpn-core/crates/nym-gateway-directory/src/gateway_cache.rs:508-524 | the order in which the fetches end does not matter |
| GatewayLists.LookupMeans | nym-vpn-core/crates/nym-gateway-directory/src/gateway_cache.rs:535-606 | a turn that looks up gateways, by the age of the list in minutes: reply, lists and fetches afterwards |
| GatewayLists.NodesMean | nym-vpn-core/crates/nym-gateway-directory/src/gateway_cache.rs:638-684 | a turn that looks up nodes: fresh, stale offline, none offline, or fetched with either answer |
| GatewayLists.JoinMeans | nym-vpn-core/crates/nym-gateway-directory/src/gateway_cache.rs:454-480 | a background fetch that ends leaves its list under the type it was for, if it brought one |
| GatewayLists.TickMeans | nym-vpn-core/crates/nym-gateway-directory/src/gateway_cache.rs:412-452 | the periodic check starts exactly the fetches of stale lists asked for in the last half hour |
| GatewayLists.RefreshMeans | nym-vpn-core/crates/nym-gateway-directory/src/gateway_cache.rs:366-410 | a refresh asks for exactly the missing or stale lists; those that came replace the old ones, and on coming online that happens once |
| GatewayLists.ResetMeans | nym-vpn-core/crates/nym-gateway-directory/src/gateway_cache.rs:374-395 | other thresholds and clearing drop every list and fetch, equal thresholds none |
| GatewayCache.GatewayCache.RefreshAll | nym-vpn-core/crates/nym-gateway-directory/src/gateway_cache.rs:397-404 | refreshes the stale lists only |
| GatewayCache.GatewayCache.PerformInitialFetchOnce | nym-vpn-core/crates/nym-gateway-directory/src/gateway_cache.rs:366-372 | refreshes once until the cache is cleared |
| GatewayCache.GatewayCache.RefreshNymnodes | nym-vpn-core/crates/nym-gateway-directory/src/gateway_cache.rs:638-684 | served under five minutes old, or stale when offline; otherwise the answer |
| GatewayCache.GatewayCache.Handle | nym-vpn-core/crates/nym-gateway-directory/src/gateway_cache.rs:302-364 | each wake-up leaves client, lists, nodes, interest, types being fetched and the initial-refresh flag as `Handled` says, and lookups get the reply `ReplyTo` says, both spelt out by the rows above; it keeps the cache in order (every list the newest, no fetch in flight overtaken) exactly if it fetches inline no list that is being fetched in the background |
| GatewayCache.GatewayCache.Run | nym-vpn-core/crates/nym-gateway-directory/src/gateway_cache.rs:302-364 | any sequence of wake-ups is taken and answered one by one and keeps all of the above; the client changes and clears the trace speaks of are exactly those asked for; and if none fetches inline a list then being fetched in the background, every list is the newest at the end |
| DepletionRate.DepletionRate.UpdateDynamicCheckInterval | nym-vpn-core/crates/nym-vpn-lib/src/bandwidth_controller.rs:336-397 | in bytes and seconds: the rate is what was used since the last check over the period, rounded down; a top-up is asked for exactly if anything was used and less than ten checks or 500 MiB are left; otherwise what is left outlasts the new period; with a period over three seconds the next is 5 s while idle and 30 s in use; fails only for a zero period |
| DepletionRate.NextPeriodMeans | nym-vpn-core/crates/nym-vpn-lib/src/bandwidth_controller.rs:336-397 | the next period in terms of the bytes used, the bytes left and the period alone |
| DepletionRate.NestedQuotientBelow | nym-vpn-core/crates/nym-vpn-lib/src/bandwidth_controller.rs:364-382 | the two rounded divisions compare with ten exactly as the product does |
| DepletionRate.LowerBoundUnreachable | nym-vpn-core/crates/nym-vpn-lib/src/bandwidth_controller.rs:390-392 | the lower-bound branch is never taken |
| DepletionRate.CheckCountReachable | nym-vpn-core/crates/nym-vpn-lib/src/bandwidth_controller.rs:387-395 | the last branch can be taken exactly for periods of at most three seconds |
| QueryHealth.QueryHealth.RecordSuccess | nym-vpn-core/crates/nym-vpn-lib/src/bandwidth_controller.rs:54-58 | an answer ends the streak, by the history reference |
| QueryHealth.QueryHealth.RecordFailure | nym-vpn-core/crates/nym-vpn-lib/src/bandwidth_controller.rs:61-66 | escalates exactly as the history says, despite the saturating counter |
| QueryHealth.EscalationFromHistory | nym-vpn-core/crates/nym-vpn-lib/src/bandwidth_controller.rs:35-67 | for every sequence of queries: at least the second failure in a row, and an answer at some time or a minute since the first of the streak |
| BandwidthErrors.QueryWithRetries | nym-vpn-core/crates/nym-vpn-lib/src/bandwidth_controller.rs:477-499 | retries only after a timeout, at most `retries` times; the last answer is the result |
| BandwidthErrors.QueryAnsweredExactly | nym-vpn-core/crates/nym-vpn-lib/src/bandwidth_controller.rs:477-499 | two attempts yield an answer exactly if the first is it, or timed out on the old protocol and the second is it |
| BandwidthErrors.ToppedUpExactly | nym-vpn-core/crates/nym-vpn-lib/src/bandwidth_controller.rs:509-566 | a top-up succeeds exactly if the gateway credits it; any other end is the gateway's fault, with the error for its protocol |
| BandwidthHistory.FirstStopIsFirst | nym-vpn-core/crates/nym-vpn-lib/src/bandwidth_controller.rs:661-673 | the operation blamed is the earliest that stops the checks |
| BandwidthHistory.SidesApart | nym-vpn-core/crates/nym-vpn-lib/src/bandwidth_controller.rs:43-51 | two histories that agree on one side agree on whether a failure of that side escalates, whatever happened on the other |
| BandwidthHistory.StopsExactly | nym-vpn-core/crates/nym-vpn-lib/src/bandwidth_controller.rs:883-1012 | a rejected top-up and a failed report always stop the checks, and a failed query exactly if the one before failed too and the side has answered or been failing for a minute; nothing else does |
| BandwidthHistory.OutcomeMeans | nym-vpn-core/crates/nym-vpn-lib/src/bandwidth_controller.rs:78-128 | reason, returned flag and promised flag for each kind of operation that can stop the checks |
| BandwidthHistory.WorkedAsPromisedExactly | nym-vpn-core/crates/nym-vpn-lib/src/bandwidth_controller.rs:78-87 | what is returned exceeds the promise exactly if a query or top-up that had succeeded stopped the checks and a side never answered, and falls short exactly if a report failed after an earlier one succeeded |
| BandwidthSession.MisleadsExactly | nym-vpn-core/crates/nym-vpn-lib/src/bandwidth_controller.rs:78-87 | after a first turn in which nothing is dropped, some continuation returns more than promised exactly if a side did not answer in that turn |
| BandwidthSession.DepletionMeans | nym-vpn-core/crates/nym-vpn-lib/src/bandwidth_controller.rs:932-1014 | what is done for a side running low, from what the gateway, the account controller and the ticket store answer |
| BandwidthSession.SideMeans | nym-vpn-core/crates/nym-vpn-lib/src/bandwidth_controller.rs:903-1044 | what the check of a side leaves, for a failed query and for an answer |
| BandwidthSession.TurnMeans | nym-vpn-core/crates/nym-vpn-lib/src/bandwidth_controller.rs:1047-1084 | entry, then exit; the period switched to is one that a side asks for and no longer than the other's |
| BandwidthHistory.RecordedGatewayIsCulpable | nym-vpn-core/crates/nym-vpn-lib/src/bandwidth_controller.rs:112-128 | the first stop, if a gateway's, names that gateway's side |
| BandwidthController.BandwidthController.Fail | nym-vpn-core/crates/nym-vpn-lib/src/bandwidth_controller.rs:661-673 | keeps the first reason and flag; tolerated failures cancel the checks only |
| BandwidthController.BandwidthController.HandleBandwidthQueryError | nym-vpn-core/crates/nym-vpn-lib/src/bandwidth_controller.rs:883-901 | the failure is recorded for its side and stops the checks exactly if it escalates |
| BandwidthController.BandwidthController.TopUpBandwidth | nym-vpn-core/crates/nym-vpn-lib/src/bandwidth_controller.rs:1001-1012 | a missing ticket is no failure; a credited top-up is recorded as such and any other end as a rejection by the gateway, with whether one had worked; a dropped one leaves no record |
| BandwidthController.BandwidthController.LeaveUpgradeMode | nym-vpn-core/crates/nym-vpn-lib/src/bandwidth_controller.rs:955-998 | the end of upgrade mode is reported exactly if we hold an attestation and saw the mode earlier, and the top-up goes ahead unless that fails |
| BandwidthController.BandwidthController.RespondToDepletion | nym-vpn-core/crates/nym-vpn-lib/src/bandwidth_controller.rs:932-1014 | a gateway in upgrade mode is left alone and remembered; any other gets its due report, then exactly one top-up attempt, and a failed report ends it before that |
| BandwidthController.BandwidthController.HandleBandwidthQuery | nym-vpn-core/crates/nym-vpn-lib/src/bandwidth_controller.rs:903-1015 | an answer yields the next period exactly if no top-up is called for; otherwise the last operation is a top-up or a failed report, and in upgrade mode there is none |
| BandwidthController.BandwidthController.CheckBandwidth | nym-vpn-core/crates/nym-vpn-lib/src/bandwidth_controller.rs:1017-1044 | a completed check queries its own side once and asks for the period the remaining bandwidth calls for, or none after a failure |
| BandwidthController.BandwidthController.CheckBoth | nym-vpn-core/crates/nym-vpn-lib/src/bandwidth_controller.rs:1047-1054 | entry, then exit, one query each; the period to switch to is none exactly if neither side asks for one, and otherwise one of theirs and at most each |
| BandwidthController.BandwidthController.Turn | nym-vpn-core/crates/nym-vpn-lib/src/bandwidth_controller.rs:1061-1085 | a turn that is not the last queries each side once and switches to the period asked for; the last one only if a stop was requested |
| BandwidthController.BandwidthController.Run | nym-vpn-core/crates/nym-vpn-lib/src/bandwidth_controller.rs:1058-1097 | for every run: all turns are taken unless a stop was requested; the reason is that of the first stop and only if failures end the session; tolerated failures never cancel the session; `worked` is as promised exactly unless a side never answered, which cannot be once both answer in the first turn, or an earlier report is forgotten, which needs an answer that mentions upgrade mode |
| BandwidthController.RecordedFailureNamesSide | nym-vpn-core/crates/nym-vpn-lib/src/bandwidth_controller.rs:120-128 | a recorded reason is never a missing ticket: it names the failing side, or nobody for the report |
| BandwidthController.ReportForgotten | nym-vpn-core/crates/nym-vpn-lib/src/bandwidth_controller.rs:955-990 | a session of the controller that ends on a failed report after a successful one, and is returned as not having worked |
| BandwidthController.SilentSideWorked | nym-vpn-core/crates/nym-vpn-lib/src/bandwidth_controller.rs:78-87 | for every first turn in which a side does not answer, a session of the controller that is returned as having worked though a side never answered |
| ProbeHistory.FailuresPaced | nym-vpn-core/crates/nym-connection-monitor/src/connection_monitor.rs:274-289 | n failures in a row start at least n - 1 timeouts apart, whatever the timing |
| ProbeHistory.FailuresOnTime | nym-vpn-core/crates/nym-connection-monitor/src/connection_monitor.rs:247-300 | with timely timers and probes they start exactly one timeout apart, from when watching began |
| EventLog.EventMeans | nym-vpn-core/crates/nym-connection-monitor/src/connection_monitor.rs:222-290 | event by event, on the sequence of probes: viable exactly if the probe succeeded; failed exactly if the failures in a row are beyond the retries of the phase, and these below the 32-bit maximum; otherwise the n-th intermittent failure |
| EventLog.NextDueMeans | nym-vpn-core/crates/nym-connection-monitor/src/connection_monitor.rs:247-300 | the next probe is due a period after a success, or a timeout of the phase after a failed one was sent |
| ConnectionMonitor.ConnectionMonitor.OnProbeReturned | nym-vpn-core/crates/nym-connection-monitor/src/connection_monitor.rs:222-290 | the event, the phase and the next deadline are those of the probe history, despite the saturating counter |
| ConnectionMonitor.ConnectionMonitor.OnTimerElapsed | nym-vpn-core/crates/nym-connection-monitor/src/connection_monitor.rs:291-300 | the next probe is sent, not before it is due |
| ConnectionMonitor.ConnectionMonitor.IncrementRetry | nym-vpn-core/crates/nym-connection-monitor/src/connection_monitor.rs:153-157 | counts up to the 32-bit maximum and stays there |
| ConnectionMonitor.ConnectionMonitor.Run | nym-vpn-core/crates/nym-connection-monitor/src/connection_monitor.rs:207-310 | for every sequence of inputs: each is handled as the reference `Advance` says, the event log is the history's, probes are paced, and exactly one of probe and timer is active |
| ConnectionMonitor.ReportsWhatHappened | nym-vpn-core/crates/nym-connection-monitor/src/connection_monitor.rs:207-290 | the monitor's own log says that of every probe, and it is monitoring exactly if some probe succeeded |
| ConnectionMonitor.InputsMean | nym-vpn-core/crates/nym-connection-monitor/src/connection_monitor.rs:207-306 | inputs are taken in order: a reply ends the probe in flight, a due timer sends the next, anything else is ignored |
| ConnectionMonitor.PunctualIsOnTime | nym-vpn-core/crates/nym-connection-monitor/src/connection_monitor.rs:207-310 | a run whose probes return within their timeout and whose timers fire when due is on schedule throughout |
| ConnectionMonitor.DetectionLatency | nym-vpn-core/crates/nym-connection-monitor/src/connection_monitor.rs:207-306 | a monitor on schedule has reported `Failed` once one timeout per attempt has passed since a period after the last reply, or since the start; unless the retries are the 32-bit maximum |
| ConnectionMonitor.TwoHopDetection | nym-vpn-core/crates/nym-connection-monitor/src/connection_monitor.rs:87-95 | on two hops: 30 s after the last reply, or 12 s after the start, the connection has been reported failed |
| ConnectionMonitor.MixnetDetection | nym-vpn-core/crates/nym-connection-monitor/src/connection_monitor.rs:75-84 | on the mixnet: 120 s after the last reply, or 60 s after the start |
| AccountValidation.ValidationMeaning | nym-vpn-core/crates/nym-vpn-account-controller/src/state_machine/mod.rs:210-232 | on the sequence of moves: a validation stands exactly if some move made the account ready at that time and every one since enters a re-check, or the ready state from the ready state |
| AccountPublication.RecheckedConnectWasValidated | nym-vpn-core/crates/nym-vpn-account-controller/src/state_receiver.rs:33-87 | a connect let through during a re-check read a validation no older than its state's, of an account ready within the last half hour and only re-checked since |
| AccountPublication.WaitingConnectWasNotValidated | nym-vpn-core/crates/nym-vpn-account-controller/src/state_receiver.rs:33-87 | a connect made to wait found no account ready within the last half hour and only re-checked since |
| AccountPublication.BlockedConnectReadCurrentState | nym-vpn-core/crates/nym-vpn-account-controller/src/state_receiver.rs:36-64 | a connect that blocks has read the state now published |
| AccountPublication.AnswerFitsState | nym-vpn-core/crates/nym-vpn-account-controller/src/state_receiver.rs:38-70 | every other answer is the one for the state read |
| AccountPublication.StepKeepsChannels | nym-vpn-core/crates/nym-vpn-account-controller/src/controller.rs:203-221 | the channels carry the validation and the state of what the controller did, the validation never behind |
| AccountPublication.ChannelsCarryWhatWasDone | nym-vpn-core/crates/nym-vpn-account-controller/src/controller.rs:203-221 | for every past: the record is of the steps taken, the validation channel carries the validation of all of it, and the state channel the state of all but a state about to be published |
| AccountPublication.ConnectMeans | nym-vpn-core/crates/nym-vpn-account-controller/src/state_receiver.rs:36-87 | a connect waits exactly on a re-check without a recent validation, and has seen the change it was woken by |
| AccountPublication.AccountChannels.SendValidation | nym-vpn-core/crates/nym-vpn-account-controller/src/controller.rs:207-213 | the validation is published first |
| AccountPublication.AccountChannels.SendState | nym-vpn-core/crates/nym-vpn-account-controller/src/controller.rs:215-220 | the state is published after it |
| AccountPublication.AccountChannels.DropValidation | nym-vpn-core/crates/nym-vpn-account-controller/src/commands/handler.rs:126 | a handler withdraws the validation and leaves the state |
| AccountPublication.AccountChannels.PollWaiter | nym-vpn-core/crates/nym-vpn-account-controller/src/state_receiver.rs:33-72 | one channel access of the waiting loop |
| AccountPublication.AccountChannels.StartConnect | nym-vpn-core/crates/nym-vpn-account-controller/src/state_receiver.rs:33-36 | the next connect, after one that is back or was given up, on a receiver that has seen any part of the states sent |
| AccountPublication.AccountChannels.Drive | nym-vpn-core/crates/nym-vpn-account-controller/src/state_receiver.rs:33-87 | for any schedule of controller, handlers and connect: a connect let through during a re-check had a recent validation, every other answer fits the state read, and a blocked connect has seen the state now published |
| Sntp.ParseByFields | nym-vpn-core/crates/nym-vpn-lib/src/clock_bootstrap.rs:184-217 | any packet is accepted or refused by exactly its mode, leap indicator, stratum and stamp |
| Sntp.ReplyMeans | nym-vpn-core/crates/nym-vpn-lib/src/clock_bootstrap.rs:184-217 | from the bytes of any packet: when it is accepted, and the time read, 70 years and 17 leap days after 1900 modulo 2^32 s |
| Sntp.AcceptedExactly | nym-vpn-core/crates/nym-vpn-lib/src/clock_bootstrap.rs:184-217 | a packet is read as a time exactly if it carries a stamp of that time from a synchronized server |
| Sntp.RoundTrip | nym-vpn-core/crates/nym-vpn-lib/src/clock_bootstrap.rs:202-216 | every Unix time below 2^32 s, to the nanosecond, is read back across the 2036 wrap from any packet with its stamp; only the all-zero stamp is refused |
| Sntp.NtpSecsInvertsUnixSecs | nym-vpn-core/crates/nym-vpn-lib/src/clock_bootstrap.rs:207-214 | no two NTP seconds are read as the same Unix second |
| Sntp.NanosInRange | nym-vpn-core/crates/nym-vpn-lib/src/clock_bootstrap.rs:215-216 | nanoseconds are below 10^9, the product fits 64 bits, and less than a nanosecond is lost |
| Sntp.DecodingOrder | nym-vpn-core/crates/nym-vpn-lib/src/clock_bootstrap.rs:207-216 | two times are ordered exactly as their 64-bit stamps are, counted from 1970 modulo 2^64, up to a nanosecond |
| Sntp.DecodingIsOneDivision | nym-vpn-core/crates/nym-vpn-lib/src/clock_bootstrap.rs:207-216 | the era branch, the seconds and the fraction together are the stamp since 1970 modulo 2^64, times 10^9, over 2^32 |
| Sntp.AgreesWithRfcExactly | nym-vpn-core/crates/nym-vpn-lib/src/clock_bootstrap.rs:207-214 | equals the rule of section 3 of RFC 4330 exactly outside the stamps it reads as before 1970 |
| ClockBootstrap.Bootstrap | nym-vpn-core/crates/nym-vpn-lib/src/clock_bootstrap.rs:96-125 | the servers looked up are asked in order; the clock is set at most once, to the first usable reply, from where it stands when that reply is in; otherwise it just goes on |
| ClockBootstrap.EnsureSaneClock | nym-vpn-core/crates/nym-vpn-lib/src/clock_bootstrap.rs:54-78 | a clock not before the build is untouched; for any other at most six servers are asked, IPv4 before IPv6, and it is asked to take the first usable reply, past the build and at most 15 years, from where it stands by then |
| ClockBootstrap.ForwardExactly | nym-vpn-core/crates/nym-vpn-lib/src/clock_bootstrap.rs:59-122 | whatever hosts and servers do within their timeouts the step is forward, exactly if the clock starts at least 48 s before the build |
| ClockBootstrap.SetsClockBack | nym-vpn-core/crates/nym-vpn-lib/src/clock_bootstrap.rs:59-122 | a clock that starts a second before the build can be set back |
| ClockBootstrap.ResolvePool | nym-vpn-core/crates/nym-vpn-lib/src/clock_bootstrap.rs:148-164 | hosts are looked up one by one until there are six addresses, while the clock goes on; the servers are those of `Pool` |
| ClockBootstrap.PoolOrder | nym-vpn-core/crates/nym-vpn-lib/src/clock_bootstrap.rs:148-164 | at most six servers, IPv4 first, each family in resolution order, none left out while there is room |
| ClockBootstrap.PoolMeans | nym-vpn-core/crates/nym-vpn-lib/src/clock_bootstrap.rs:148-164 | of the hosts looked up, the fewest with six addresses or all: the first six IPv4 addresses, then as many IPv6 ones as there is room for |
| BlacklistedGateways.BlacklistedGateways.Add | nym-vpn-core/crates/nym-gateway-directory/src/blacklisted_gateways.rs:20-30 | afterwards only ids added within the last twenty minutes are held |
| BlacklistedGateways.BlacklistedGateways.Remove | nym-vpn-core/crates/nym-gateway-directory/src/blacklisted_gateways.rs:32-42 | likewise, and the id is gone |
| BlacklistedGateways.BlacklistedGateways.Clear | nym-vpn-core/crates/nym-gateway-directory/src/blacklisted_gateways.rs:44-52 | nothing is held |
| BlacklistedGateways.BlacklistedGateways.Exists | nym-vpn-core/crates/nym-gateway-directory/src/blacklisted_gateways.rs:54-62 | the answer is that of the unpruned history |
| BlacklistedGateways.BlacklistedExactly | nym-vpn-core/crates/nym-gateway-directory/src/blacklisted_gateways.rs:13-62 | on the sequence of changes: blacklisted means added less than twenty minutes ago with nothing about the id since |
| Recipient.ParseOfPrint | nym-vpn-core/crates/nym-vpn-lib-types/src/gateway.rs:116-170 | parsing a printed recipient returns it |
| Recipient.PrintOfParse | nym-vpn-core/crates/nym-vpn-lib-types/src/gateway.rs:116-170 | with a canonical codec, printing an accepted string's recipient gives the string back |
| Recipient.AcceptedShape | nym-vpn-core/crates/nym-vpn-lib-types/src/gateway.rs:119-143 | a string is accepted exactly if it is three readable keys joined by '.' and '@' |
| Recipient.ParsedKeys | nym-vpn-core/crates/nym-vpn-lib-types/src/gateway.rs:119-143 | which key is read from where, and which error comes first |
| Recipient.PrintedForm | nym-vpn-core/crates/nym-vpn-lib-types/src/gateway.rs:159-170 | identity, dot, encryption key, at sign, gateway |
| Recipient.RejectedShapes | nym-vpn-core/crates/nym-vpn-lib-types/src/gateway.rs:120-130 | the two shape errors occur exactly for other than one '@', or other than one '.' before it |

## Left out

- AdblockToggles.Toggles.TakeGeneration: the generation is unbounded; the program's counter would wrap after 2^32 or more clicks.
- AdblockToggles.Toggles.SpawnStartup: the restore and its fast path start before the first click and the fast path ends before it, as `vpn_service.rs` awaits them; a later start is not modelled.
- ClockBootstrap.EnsureSaneClock: nobody else sets the clock meanwhile, and a query's bind, connect and send take no time of their own.
- ConnectionMonitor.ConnectionMonitor.OnProbeReturned: instants do not overflow, so the error of computing the next probe time is not modelled.
- BandwidthController.BandwidthController.TopUpBandwidth: amounts credited are not tracked; the program ignores them too.
- BlacklistedGateways.BlacklistedGateways.Exists: a poisoned lock, which makes every operation fail, is not modelled; the clock is monotone.
- Recipient.ParseOfPrint: base58 and key validity are an abstract codec that reads back what it writes and never writes a separator.
- The memory model of atomics: every access is sequentially consistent, as the program asks for on the generation counter.
- HTTP, DNS, D-Bus, curl, uci, nft and iptables: their results are parameters or arbitrary steps.
- `lookup_gateway_ip`, `lookup_filtered_gateways` and the node lookups by identity: reads of the cache, easy beside the rest.
- The upgrade-mode recheck and token request: their results change nothing in the controller.
- The handlers of the account state machine: any sequence of states and dropped validations is allowed.
- The conversion of host files, firewall rules, configuration migration, the command line and the web frontend.
