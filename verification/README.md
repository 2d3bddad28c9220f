# Verified models of the trading dashboard's stateful parts

A Dafny 4.11 model of the parts of the system that are state machines or concurrent protocols, with proofs of
what they keep over whole runs. `dafny verify dfyconfig.toml` checks all of it.

Each module follows one component. A value datatype holds its state, `Step` is one call, timer firing, message
or response, and `Exec` is a run; an event that cannot happen in a state changes nothing. The classes carry the
source's fields and actions and are proved against `Step`; the theorems quantify over all runs of `Exec`.

| file | component |
|---|---|
| AutopilotMonitor.dfy, AutopilotProtocol.dfy | the execution engine's per-account autopilot cache: lazily loaded from a Redis key under a lock, kept up to date by a pub/sub listener; the second file interleaves it with the backend that sets the key and then publishes |
| ApiClient.dfy | scope tags, dropping of stale responses, single-flight token refresh, and the user switch |
| ChartStore.dfy, ReplayStore.dfy | the replay timer machine and the merging chart it writes to |
| WebSocketManager.dfy | reconnect with exponential backoff, wake-ups and manual shutdown |
| SignalStore.dfy, StableSort.dfy | the filtered and sorted signal view with its fetches |
| LiveSignals.dfy | the live panels: move to front, cut to a length |
| AgentStore.dfy | the fold of agent events into pending approvals and feed |
| SandboxStore.dfy | the paper-trading ledger |
| Grouping.dfy | grouping events by aggregate and positions by account |
| HealthStore.dfy | breakers with their banner, and the lag list |
| Seqs.dfy | sequence vocabulary |

## Where the code does not keep a promise

Each of these is stated for the code as it is, with the condition under which the promise holds, in both
directions, and mostly with an input that breaks it.

- Replay: `loadCandles` says that it sorts in strictly ascending order (replayStore.ts:67), but it compares
  instants while the chart merges by timestamp text. The chart is strictly ascending if and only if no instant
  is written in two ways (`CompleteReplay`, `MergeAscends`).
- Replay: `stop` resets the index and leaves the chart (`StopLeavesChart`).
- Scope: a retry after a token refresh runs the request interceptor again, which replaces the tag but cannot
  remove an older `asUserId`. If the admin views itself by then, another user's data pass as its own
  (`CrossingIsExact`). A scope that is stable from the 401 to the retry does not prevent it, because the
  request may have been sent before that (`CrossingLeaks`).
- Scope: the strategy figures and the broker symbols are not cleared on a switch; they are right afterwards if
  and only if they were empty or last loaded for the new scope (`UnclearedAfterSwitch`, `UnclearedSurvives`).
- WebSocket: `connect()` during a handshake leaves the old socket's handlers attached; then `disconnect()` is
  not final (`PairingIsExact`, `ShutdownIsFinal`, `ConnectInHandshakeLeaks`). A wake-up before the first
  `connect()` opens a socket too (`EarlyWakeOpens`).
- Autopilot: the cache follows the key except for five guarded faults: a failed load of an enabled account, a
  lost publish, a listener that ends with frames unread, a key written without a message, and a writer that
  gives up on the key and publishes all the same (`StepAgrees`, `DrainedAgreement`; runs in `FailedLoadBreaks`,
  `UnheardPublishBreaks`, `FailedWriteBreaks`). Without them it always does (`FaultlessAgreement`).
- Autopilot: `subscribe` after `stop`, while the old listener still waits for a frame, starts nothing: the next
  frame is lost, and no callback is called until another `subscribe` finds the thread ended
  (`SubscribeAfterStop`, `StoppedIsDeaf`).
- Signals: a fetch computes the view with the filters and sort it captured before its `await`
  (`FetchIsExact`, `StaleFetchShows`). Overlapping fetches, and a page whose fetch fails, leave the list on
  another page than the number shown (`PageIsExact`, `MoveEnds`).
- Live panels: cutting early is exact if and only if the fetched start list repeats an id only at its end
  (`CutOnceIsEnough`).

## Model

| member | source | states |
|---|---|---|
| AutopilotProtocol.DrainedAgreement | packages/execution-engine/src/autopilot/autopilot_monitor.py:42-143 | over every interleaving of writer, retries, channel, loading callers, registrations, stops, crashes and listener: a cached account with nothing on its way holds its key's value if and only if no fault of the run broke the agreement, or something mended it afterwards; in particular when a load saw a newer key than the messages still to come |
| AutopilotProtocol.StepAgrees | packages/execution-engine/src/autopilot/autopilot_monitor.py:42-143 | one step, exactly: the cache is coming to the key's value afterwards if and only if the step mends it, or it was before and the step is none of five guarded faults (failed write, lost publish, listener that ends, write without message, failed read) |
| AutopilotProtocol.FaultlessAgreement | packages/backend/src/modules/autopilot/autopilot.service.ts:95-104 | with the writer setting the key and then publishing, and nothing failing or being stopped after the first subscription is up, every cached account with nothing on its way holds exactly its key's value |
| AutopilotProtocol.CallbacksExact | packages/execution-engine/src/autopilot/autopilot_monitor.py:125-143 | an account's change notices are its delivered messages with repetitions of the cached value removed, and each callback has been called with exactly the notices since its registration, in order |
| AutopilotProtocol.CallbacksAlternate | packages/execution-engine/src/autopilot/autopilot_monitor.py:129-141 | at every moment of every run, consecutive calls of one callback for one account carry opposite values |
| AutopilotProtocol.RedisReadOnce | packages/execution-engine/src/autopilot/autopilot_monitor.py:74-77 | over the monitor's life Redis is read at most once per account |
| AutopilotProtocol.RunKeepsInv | packages/execution-engine/src/autopilot/autopilot_monitor.py:68-143 | the invariants behind the results on callbacks and reads (lock, cache equals last message or load, reads, calls) survive every step of every party |
| AutopilotProtocol.AgreementReachable | packages/execution-engine/src/autopilot/autopilot_monitor.py:95-143 | from every reachable state with a healthy listener some run without faults drains the system; then every account holds what was coming for it, and that is its key's value if and only if the run before ended agreeing |
| AutopilotProtocol.CanDrain | packages/backend/src/modules/autopilot/autopilot.service.ts:95-104 | the writer and the listener can always finish what they started, without faults, without changing a key, and with the cache arriving at what was coming |
| AutopilotProtocol.UninterruptedLoad | packages/execution-engine/src/autopilot/autopilot_monitor.py:68-77 | the three interleaved steps of a load, taken without interruption, do what the contract of `IsEnabled` says |
| AutopilotProtocol.UninterruptedDelivery | packages/execution-engine/src/autopilot/autopilot_monitor.py:102-143 | the interleaved steps of one frame, taken without interruption, do what the contract of `Handle` says to cache and callbacks |
| AutopilotProtocol.FailedLoadBreaks | packages/execution-engine/src/autopilot/autopilot_monitor.py:60-66 | a failed load of an enabled account leaves it disabled although everything is drained |
| AutopilotProtocol.UnheardPublishBreaks | packages/execution-engine/src/autopilot/autopilot_monitor.py:97-102 | a message published before the listener has subscribed is lost, and an account loaded earlier keeps its old value |
| AutopilotProtocol.FailedWriteBreaks | packages/backend/src/modules/autopilot/autopilot.service.ts:414-458 | the writer that gives up on the key publishes all the same, and the cache follows the message instead of the key |
| AutopilotProtocol.SubscribeAfterStop | packages/execution-engine/src/autopilot/autopilot_monitor.py:86-104 | after `subscribe` the next frame is lost and ends the thread if and only if the listener had been stopped and was still waiting |
| AutopilotProtocol.StoppedIsDeaf | packages/execution-engine/src/autopilot/autopilot_monitor.py:102-104 | once stopped while it waits, the listener delivers no message and calls no callback, also none registered later, until a `subscribe` finds it ended |
| AutopilotProtocol.StopDeafens | packages/execution-engine/src/autopilot/autopilot_monitor.py:150-152 | `stop` deafens a waiting listener at once and a busy one when it is done with its message |
| AutopilotProtocol.NoListenerHearsNothing | packages/execution-engine/src/autopilot/autopilot_monitor.py:95-100 | over every run, no listener means no subscription: what is published meanwhile reaches no later listener |
| AutopilotMonitor.NoticesDestutter | packages/execution-engine/src/autopilot/autopilot_monitor.py:125-137 | for each account the messages that cause callbacks are its messages without repetitions of the cached value, and the cache ends with its last message |
| AutopilotMonitor.DestutterAlternates | packages/execution-engine/src/autopilot/autopilot_monitor.py:129-137 | a list of values without repetitions alternates, starting with the opposite of the value before it |
| AutopilotMonitor.KeyTexts | packages/backend/src/modules/autopilot/autopilot.service.ts:95-100 | the text enabled means enabled, any other or none means disabled; the two texts written read back as what was meant |
| AutopilotMonitor.RoundCallsEach | packages/execution-engine/src/autopilot/autopilot_monitor.py:139-141 | a round calls every callback once, in the order of registration, with the message |
| AutopilotMonitor.AutopilotMonitor.LoadState | packages/execution-engine/src/autopilot/autopilot_monitor.py:42-66 | the key's text decides; a missing key, another text or an exception caches and returns disabled |
| AutopilotMonitor.AutopilotMonitor.IsEnabled | packages/execution-engine/src/autopilot/autopilot_monitor.py:68-77 | the answer is the value cached afterwards; Redis is asked, once, only for an account that is not cached |
| AutopilotMonitor.AutopilotMonitor.Subscribe | packages/execution-engine/src/autopilot/autopilot_monitor.py:79-93 | one more callback; a listener runs afterwards; the stop event is cleared only if none was alive |
| AutopilotMonitor.AutopilotMonitor.Handle | packages/execution-engine/src/autopilot/autopilot_monitor.py:106-143 | one frame: the cache after it, and a round of every callback, in order, exactly if the frame changes the cached value |
| AutopilotMonitor.AutopilotMonitor.Listen | packages/execution-engine/src/autopilot/autopilot_monitor.py:102-143 | the loop over any list of frames: cache and callback calls are those of the accepted frames before the first iteration that sees the stop event or gets data that ends the thread |
| ApiClient.SingleFlight | packages/dashboard/src/services/ApiClient.ts:117-166 | over every run: two refreshes are never outstanding together, requests wait exactly while one is, and no refresh request waits for a refresh |
| ApiClient.JoinedIsAnswered | packages/dashboard/src/services/ApiClient.ts:153-178 | over every run: a 401 that arrives while a refresh is out, or that starts one, makes its request wait for that refresh through whatever else happens; when it settles the request is sent again once with the new token, or rejected with the tokens gone |
| ApiClient.UnauthorizedJoins | packages/dashboard/src/services/ApiClient.ts:147-166 | a 401 makes its request wait if and only if it is not of the refresh URL and a refresh is out or can start; a refresh that is out stays the only one |
| ApiClient.RefreshStarts | packages/dashboard/src/services/ApiClient.ts:141-166 | a step starts a refresh exactly when it is a 401 of a non-refresh URL with a refresh token and no refresh outstanding |
| ApiClient.BurstSharesRefresh | packages/dashboard/src/services/ApiClient.ts:153-166 | however many 401s and other events come before the refresh settles, they start at most one refresh |
| ApiClient.SettleAnswersAll | packages/dashboard/src/services/ApiClient.ts:168-178 | when the refresh succeeds, every request that joined it is on the network again, once, with the new token and the scope of that moment; when it fails, every one is rejected and the tokens are gone |
| ApiClient.ConservedRequests | packages/dashboard/src/services/ApiClient.ts:119-179 | over every run, every request ever sent is in exactly one of three places: on the network, waiting, answered |
| ApiClient.AnsweredOnce | packages/dashboard/src/services/ApiClient.ts:119-179 | an answer, including the promise that never settles, is final over every continuation |
| ApiClient.ScopeSafety | packages/dashboard/src/services/ApiClient.ts:90-140 | in every reachable state the caches that a switch clears hold only responses tagged with the current scope; and, unless a crossing happened, only what the server returned for the current scope |
| ApiClient.CrossingIsExact | packages/dashboard/src/services/ApiClient.ts:168-174 | after a run without crossings and one more step, every order of responses keeps those caches right if and only if that step is not a crossing: a refresh that succeeds while the admin views itself and a request sent for another user waits |
| ApiClient.RetryLeaks | packages/dashboard/src/services/ApiClient.ts:102-110 | a retry keeps another user's id under the tag of the admin itself exactly when it carries one and runs while the admin views itself |
| ApiClient.CrossingLeaks | packages/dashboard/src/services/ApiClient.ts:168-174 | a concrete run, with a scope that is stable from the 401 to the retry, in which the admin's own account list receives another user's accounts |
| ApiClient.SwitchContents | packages/dashboard/src/components/UserSwitcher.tsx:43-67 | a real switch empties the four performance caches and the three account caches, leaves the other two, the tokens and the network alone, and changes the scope; choosing the current scope changes nothing |
| ApiClient.UnclearedIsLastStored | packages/dashboard/src/stores/performanceStore.ts:123-133 | over every run, whatever the switches, the strategy figures and the broker symbols show what was last stored in them |
| ApiClient.UnclearedAfterSwitch | packages/dashboard/src/components/UserSwitcher.tsx:54-67 | after any run and a real switch, those show only data of the new scope if and only if nothing was stored in them or the last response stored was for that scope |
| ApiClient.UnclearedSurvives | packages/dashboard/src/components/UserSwitcher.tsx:54-67 | for each of them and each user, a run after which the admin's own figures are shown for the user |
| ApiClient.StoredCallsAreScoped | packages/dashboard/src/services/ApiClient.ts:98-101 | every call whose response is stored goes to a URL that the interceptor tags |
| ApiClient.RequestMeaning | packages/dashboard/src/services/ApiClient.ts:90-114 | for every storage, call and config: a stored token goes out whatever the URL; own URLs get neither scope nor tag; every other URL gets the stored scope as tag, and as user id if there is one |
| ApiClient.RefreshUrlMeaning | packages/dashboard/src/services/ApiClient.ts:147-148 | a URL counts as the refresh URL if and only if it contains that text |
| ApiClient.IssueMeaning | packages/dashboard/src/services/ApiClient.ts:90-114 | a new request is on the network under a new number, with the stored token and the current scope |
| ApiClient.ResponseMeaning | packages/dashboard/src/services/ApiClient.ts:119-140 | a response of another scope is ignored and stores nothing; any other is handed on and stored where its caller stores it, and nowhere else |
| ApiClient.ErrorMeaning | packages/dashboard/src/services/ApiClient.ts:141-159 | an error other than 401 rejects its request and nothing else; a 401 that cannot be helped also forgets both tokens |
| ApiClient.NewTokensAreUsed | packages/dashboard/src/services/ApiClient.ts:168-174 | after a login or a refresh, every request carries the new token |
| ApiClient.ApiClient.OnRequest | packages/dashboard/src/services/ApiClient.ts:90-114 | the config sent: the token on every URL, user id and scope tag on all but the own URLs, with what an earlier attempt left in it |
| ApiClient.ApiClient.OnResponse | packages/dashboard/src/services/ApiClient.ts:119-140 | a stale response is never handed on; another one settles its request and is stored by its caller; both network and scope invariants are kept |
| ApiClient.ApiClient.OnError | packages/dashboard/src/services/ApiClient.ts:141-166 | the three rejections and the joining of a shared refresh; both invariants are kept |
| ApiClient.ApiClient.OnRefreshed | packages/dashboard/src/services/ApiClient.ts:160-174 | the promise is forgotten and all that waited goes out again; both invariants are kept |
| ApiClient.ApiClient.OnRefreshError | packages/dashboard/src/services/ApiClient.ts:147-151 | tokens are cleared and all that waited is rejected; both invariants are kept |
| ApiClient.ApiClient.OnUserChosen | packages/dashboard/src/components/UserSwitcher.tsx:43-67 | a real change clears the scoped caches and flips the scope, keeping both invariants; choosing the current scope does nothing |
| ApiClient.ApiClient.SetViewingAs | packages/dashboard/src/stores/authStore.ts:103-112 | every scoped request sent from then on is tagged with the chosen scope and asks the server for it; an empty id is never stored |
| ReplayEngine.CompleteReplay | packages/dashboard/src/stores/replayStore.ts:64-87 | load, play and enough ticks on any unsorted list with duplicates: the chart is strictly ascending if and only if no instant is written in two ways, and then it has one candle per timestamp, the last one of the input |
| ReplayEngine.ChartIsMergedPrefix | packages/dashboard/src/stores/replayStore.ts:24-117 | after any run without stop the chart is the merge of the first `currentIndex` sorted candles |
| ReplayEngine.InterleavingIndependence | packages/dashboard/src/stores/replayStore.ts:24-129 | two such runs that reach the same index on the same data show the same chart |
| ReplayEngine.RunKeepsInv | packages/dashboard/src/stores/replayStore.ts:32-135 | over every run, stops included: one live timer, with the stored list and current period, exactly while playing; the chart is the played prefix merged onto what was there when the index was last reset |
| ReplayEngine.TicksReachPaused | packages/dashboard/src/stores/replayStore.ts:42-52 | from playing, ticks alone reach paused after exactly `length - index + 1` of them, with every candle played and no timer left, and not one tick earlier |
| ReplayEngine.StopLeavesChart | packages/dashboard/src/stores/replayStore.ts:131-135 | after stop the chart shows the empty prefix if and only if nothing had been played, neither since the last reset nor before an earlier stop |
| ReplayEngine.TimerFollowsSpeed | packages/dashboard/src/stores/replayStore.ts:38-42 | over every run a live timer's period times the speed is 1000, it is at least 10 ms, and it plays the stored list |
| ReplayEngine.FasterIsShorter | packages/dashboard/src/stores/replayStore.ts:39-40 | of two running replays the one with the higher speed has the shorter period |
| ReplayEngine.PauseThenResume | packages/dashboard/src/stores/replayStore.ts:89-101 | pausing and resuming, or playing on, at any point changes only the timer |
| ReplayEngine.SortKeepsLast | packages/dashboard/src/stores/replayStore.ts:68-70 | sorting by time keeps, for each timestamp, which candle is the last one |
| ReplayEngine.ReplayStore.OnInterval | packages/dashboard/src/stores/replayStore.ts:42-52 | the timer callback is the tick of its timer and keeps the discipline |
| ReplayEngine.ReplayStore.LoadCandles | packages/dashboard/src/stores/replayStore.ts:64-73 | the whole new state: sorted list, cleared chart and timer |
| ReplayEngine.ReplayStore.Play | packages/dashboard/src/stores/replayStore.ts:75-87 | the whole new state from idle, paused, playing and with nothing loaded |
| ReplayEngine.ReplayStore.Pause | packages/dashboard/src/stores/replayStore.ts:89-93 | timer cleared, status paused, chart and index kept |
| ReplayEngine.ReplayStore.Resume | packages/dashboard/src/stores/replayStore.ts:95-101 | a new timer, only from paused |
| ReplayEngine.ReplayStore.Rewind | packages/dashboard/src/stores/replayStore.ts:103-108 | idle at index zero with an empty chart |
| ReplayEngine.ReplayStore.StepForward | packages/dashboard/src/stores/replayStore.ts:110-117 | one more candle on the chart and paused, or nothing at the end |
| ReplayEngine.ReplayStore.SetSpeed | packages/dashboard/src/stores/replayStore.ts:119-129 | a request below 1 gives 1, above 100 gives 100, else itself; while playing a new timer runs with 1000 divided by that speed, and nothing else changes |
| ReplayEngine.ReplayStore.Stop | packages/dashboard/src/stores/replayStore.ts:131-135 | idle at index zero with the chart as it was |
| Chart.MergeAscends | packages/dashboard/src/stores/chartStore.ts:40-53 | adding time-ordered candles one by one leaves a strictly ascending chart if and only if no instant is written in two ways |
| Chart.MergeKeepsLast | packages/dashboard/src/stores/chartStore.ts:44-51 | for time-ordered candles with no instant written in two ways, each candle on the chart is the last one added with its timestamp |
| Chart.MergeCovers | packages/dashboard/src/stores/chartStore.ts:40-53 | every timestamp that was added is on the chart |
| Chart.ChartStore.AddCandle | packages/dashboard/src/stores/chartStore.ts:40-53 | the last candle is replaced on an equal timestamp, else the candle is appended |
| WebSocketManager.NeverStuck | packages/dashboard/src/services/WebSocketManager.ts:86-302 | over every run of calls, wake-ups, timers and socket events: once a socket was created the manager is shut down, connected, in handshake, or its one armed timer will try again; never two timers |
| WebSocketManager.PairedPicture | packages/dashboard/src/components/LayoutShell.tsx:46-55 | if `connect()` is called only with no socket or a connected one: every socket but the current one is closed and without handlers, a timer is armed exactly for a closed socket, and the status shown tells the situation |
| WebSocketManager.ConnectionLasts | packages/dashboard/src/services/WebSocketManager.ts:86-113 | with the pairing, a connected socket stays connected, and the status online, at every event but `disconnect()` and its own drop |
| WebSocketManager.PairingIsExact | packages/dashboard/src/services/WebSocketManager.ts:107-125 | a public `connect()` keeps the picture if and only if the pairing is respected at that call |
| WebSocketManager.ShutdownIsFinal | packages/dashboard/src/services/WebSocketManager.ts:191-200 | after any run, `disconnect()` is final (no socket, timer or status change until `connect()`) if and only if no replaced socket is still in handshake with its handlers |
| WebSocketManager.PairedShutdownIsFinal | packages/dashboard/src/services/WebSocketManager.ts:191-200 | in runs that keep the pairing `disconnect()` is final |
| WebSocketManager.ConnectInHandshakeLeaks | packages/dashboard/src/services/WebSocketManager.ts:107-113 | two calls of `connect()` in a row, then `disconnect()`: the late opening of the first socket shows connected |
| WebSocketManager.ArmedDelay | packages/dashboard/src/services/WebSocketManager.ts:289-302 | in any run a timer is armed with min(1000 * 2^n, 30000) ms, where n counts, from the events alone, the timer firings since the last opening of a socket with handlers or wake-up that found the manager neither shut down nor connected; and every armed timer waits 1000 to 30000 ms |
| WebSocketManager.PairedDelay | packages/dashboard/src/services/WebSocketManager.ts:289-302 | in runs that keep the pairing that stays the armed timer's delay until it fires or is cleared |
| WebSocketManager.LeakOutdatesDelay | packages/dashboard/src/services/WebSocketManager.ts:107-113 | without the pairing a leaked socket that opens resets the backoff but not the armed timer |
| WebSocketManager.EarlyWakeOpens | packages/dashboard/src/services/WebSocketManager.ts:76-92 | a run without `connect()` stays without sockets if and only if its first wake-up comes after a `disconnect()` |
| WebSocketManager.BackoffClosed | packages/dashboard/src/services/WebSocketManager.ts:294-297 | doubling with a cut at every step is the cut of the power |
| WebSocketManager.WebSocketManager.Connect | packages/dashboard/src/services/WebSocketManager.ts:107-189 | the whole new state, and that the picture is kept exactly by paired calls |
| WebSocketManager.WebSocketManager.Disconnect | packages/dashboard/src/services/WebSocketManager.ts:191-200 | no socket, no timer, handlers detached, status offline |
| WebSocketManager.WebSocketManager.WakeReconnect | packages/dashboard/src/services/WebSocketManager.ts:86-92 | nothing when shut down or connected, else a fresh socket with the delay reset to 1000 and no timer |
| WebSocketManager.WebSocketManager.OnTimeout | packages/dashboard/src/services/WebSocketManager.ts:293-301 | the delay doubled up to the limit and a fresh socket |
| WebSocketManager.WebSocketManager.HandleConnect | packages/dashboard/src/services/WebSocketManager.ts:242-244 | delay reset, status connected |
| WebSocketManager.WebSocketManager.HandleDisconnect | packages/dashboard/src/services/WebSocketManager.ts:276-281 | the one timer re-armed with the current delay unless shut down |
| WebSocketManager.WebSocketManager.HandleError | packages/dashboard/src/services/WebSocketManager.ts:283-287 | the one timer re-armed with the current delay unless shut down |
| SignalStore.ViewIsSortedMatches | packages/dashboard/src/stores/signalStore.ts:63-128 | over every run whose last stale fetch, if any, is followed by a recomputation, the view is the stable sort of the matches, and also the matches of the sorted list |
| SignalStore.FetchIsExact | packages/dashboard/src/stores/signalStore.ts:79-91 | whatever the server answers the view is right when a fetch finishes, if and only if filters and sort are those captured at its start |
| SignalStore.RunView | packages/dashboard/src/stores/signalStore.ts:79-128 | over every run the view belongs to the current filters and sort if and only if the run ends fresh |
| SignalStore.SortFilterCommute | packages/dashboard/src/stores/signalStore.ts:39-65 | sorting the matches and matching the sorted list agree, and give the stable sort of the matches |
| SignalStore.ViewMeaning | packages/dashboard/src/stores/signalStore.ts:39-61 | a view shows every stored signal with the wanted direction, mode and timeframe, as often as it is stored, and no other, in the order of the chosen field |
| SignalStore.StaleFetchShows | packages/dashboard/src/stores/signalStore.ts:79-91 | a filter change during a fetch: a buy signal is shown although only sells are wanted |
| SignalStore.SignalStore.OnFetched | packages/dashboard/src/stores/signalStore.ts:83-86 | list, total and view replaced, the view under the captured filters and sort |
| SignalStore.SignalStore.SetFilter | packages/dashboard/src/stores/signalStore.ts:93-98 | one filter changed and the view recomputed, the stored list untouched |
| SignalStore.SignalStore.SetSort | packages/dashboard/src/stores/signalStore.ts:100-106 | a second choice of an ascending field turns it around; the view recomputed |
| SignalStore.SignalStore.NextPage | packages/dashboard/src/stores/signalStore.ts:108-113 | a move ends inside the list, on a page boundary if it began on one, and asks for the page it ends on |
| SignalStore.SignalStore.PrevPage | packages/dashboard/src/stores/signalStore.ts:115-120 | a move goes back, not below zero, stays on a page boundary, and asks for the page it ends on |
| SignalStore.PageIsExact | packages/dashboard/src/stores/signalStore.ts:79-120 | whatever the order of the responses, the list ends as the page at the current offset if and only if all fetches under way ask for that page |
| SignalStore.OrderlyPage | packages/dashboard/src/stores/signalStore.ts:79-120 | in runs whose fetches start one at a time and succeed, the list is the page at the current offset whenever no fetch is under way |
| SignalStore.MoveEnds | packages/dashboard/src/stores/signalStore.ts:83-90 | a move whose fetch fails leaves the page number moved and the old page listed; if it succeeds the list is the new page |
| SignalStore.StepPage | packages/dashboard/src/stores/signalStore.ts:79-120 | the offset stays on a page boundary, changes only by a move, and the listed page only by a response |
| SignalStore.PageRoundTrip | packages/dashboard/src/stores/signalStore.ts:108-120 | going on and back, or back and on, asks for the page one started from |
| SignalStore.SignalStore.AddSignal | packages/dashboard/src/stores/signalStore.ts:122-128 | the signal in front of the list and the view recomputed |
| StableSort.SortCorrect | packages/dashboard/src/stores/signalStore.ts:48-61 | the sort that stands for `Array.prototype.sort` is a stable sort for every total preorder |
| StableSort.StableSortUnique | packages/dashboard/src/stores/signalStore.ts:48-61 | a stable sort is unique, so nothing depends on the algorithm |
| LiveSignals.CutOnceIsEnough | packages/dashboard/src/components/ChartArea.tsx:64-68 | for every cut and all arrivals, cutting after each arrival equals cutting once at the end if and only if the start list repeats an id only at its end; distinct ids suffice |
| LiveSignals.PanelIsLatest | packages/dashboard/src/components/LiveDeskPage.tsx:147-149 | from any fetched list with distinct ids and any arrivals: ids stay distinct, each entry is the latest version of its id, the most recent come first, and an id is missing only if the panel is full of more recent ones |
| LiveSignals.LongStart | packages/dashboard/src/components/ChartArea.tsx:64-68 | a fetched list longer than the cut gives the same panel as its first entries do, from the first arrival on |
| LiveSignals.ChartPanelFilters | packages/dashboard/src/components/ChartArea.tsx:65-67 | the chart's panel is the panel of the arrivals for its instrument, cut to 30 |
| LiveSignals.KeptIsLatest | packages/dashboard/src/components/ChartArea.tsx:66-66 | without a cut the list holds the last version of every id that arrived and nothing else |
| AgentStore.ApprovalsAreStillOpen | packages/dashboard/src/stores/agentStore.ts:271-362 | after any run of events and answered approvals the pending list is the requests that nothing later resolved, newest first, then those of the start list that nothing resolved |
| AgentStore.ResolvedIsGone | packages/dashboard/src/stores/agentStore.ts:271-291 | once an id was resolved, approved or denied, no pending approval has it until it is requested again |
| AgentStore.RequestStaysOpen | packages/dashboard/src/stores/agentStore.ts:341-354 | a request waits under its approval id, with its agent and text, as long as nothing resolves that id |
| AgentStore.FeedShowsLog | packages/dashboard/src/stores/agentStore.ts:377-392 | after any run the feed shows the reversed event log, each entry with its event's id, type, agent and text, then the old feed, cut to 200 |
| AgentStore.AgentsFoldTheirEvents | packages/dashboard/src/stores/agentStore.ts:333-374 | after any run each agent and each pipeline is what its own events, in order, make of it, whatever the others did |
| AgentStore.AgentsAreCurrent | packages/dashboard/src/stores/agentStore.ts:333-374 | each agent has the state of its last state change and the job of its last job update, each pipeline the status of its last update and the last stage given |
| AgentStore.SwitchIsLast | packages/dashboard/src/stores/agentStore.ts:339-340 | the kill switch is as the last event about it says |
| AgentStore.AgentStore.HandleAgentEvent | packages/dashboard/src/stores/agentStore.ts:328-393 | one event: the update its type asks for and then the feed; nothing for an event without type |
| AgentStore.AgentStore.OnApproved | packages/dashboard/src/stores/agentStore.ts:271-280 | a successful approval removes its request, a failed one changes nothing |
| AgentStore.AgentStore.OnDenied | packages/dashboard/src/stores/agentStore.ts:282-291 | a successful denial removes its request, a failed one changes nothing |
| SandboxStore.Conservation | packages/dashboard/src/stores/sandboxStore.ts:40-96 | over every run the portfolio is worth 100000 plus the sum, over the price updates since the last reset, of signed size times price change |
| SandboxStore.LawOfTrades | packages/dashboard/src/stores/sandboxStore.ts:40-96 | over every run, cut at its last reset: the portfolio is worth 100000 plus, for each trade placed since as it was asked for, signed size times (last price of the instrument while it was open - price asked) |
| SandboxStore.TradesAddUp | packages/dashboard/src/stores/sandboxStore.ts:57-96 | the same from any state, with the balance and the open positions it starts from |
| SandboxStore.StepValue | packages/dashboard/src/stores/sandboxStore.ts:57-96 | opening and closing conserve the portfolio value, a price update moves it by its gain, switching off resets it |
| SandboxStore.CloseBooksAll | packages/dashboard/src/stores/sandboxStore.ts:70-79 | with distinct ids the one position that close books is all that it drops |
| SandboxStore.StepKeepsIds | packages/dashboard/src/stores/sandboxStore.ts:57-79 | open ids stay distinct and below the counter |
| SandboxStore.RepeatedIdsLoseMoney | packages/dashboard/src/stores/sandboxStore.ts:70-79 | with a repeated id a close would change the portfolio value |
| SandboxStore.SandboxStore.PlaceTrade | packages/dashboard/src/stores/sandboxStore.ts:57-68 | one more position, with the instrument, direction, size and price asked for and a new number; the portfolio value unchanged |
| SandboxStore.SandboxStore.ClosePosition | packages/dashboard/src/stores/sandboxStore.ts:70-79 | the new state, and the portfolio value unchanged |
| SandboxStore.SandboxStore.UpdateAll | packages/dashboard/src/stores/sandboxStore.ts:81-88 | the new state, and the portfolio value moved by the gain of the update |
| SandboxStore.SandboxStore.ToggleSandbox | packages/dashboard/src/stores/sandboxStore.ts:48-55 | the switch turned; switching off resets balance and positions, switching on keeps them |
| Grouping.GroupByAggregate | packages/dashboard/src/components/EventTimeline.tsx:51-59 | keys once each in order of first appearance, exactly the keys that occur, and each group the filter of the events by its key |
| Grouping.PositionsByAccount | packages/dashboard/src/components/LiveDeskPage.tsx:279-287 | the same for open positions by account |
| Grouping.GroupingUnique | packages/dashboard/src/components/EventTimeline.tsx:50-51 | these conditions determine the grouping |
| Grouping.GroupsPartition | packages/dashboard/src/components/EventTimeline.tsx:51-59 | the groups together hold every element exactly once |
| HealthStore.BannerTellsOpen | packages/dashboard/src/stores/healthStore.ts:57-122 | over every run of snapshots and live updates the banner shows if and only if a stored breaker is open |
| HealthStore.BreakersAreCurrent | packages/dashboard/src/stores/healthStore.ts:57-67 | after a snapshot and any run without another, the breakers are those of the snapshot, local ones first, each in the state of its last change since |
| HealthStore.LagsRefineMap | packages/dashboard/src/stores/healthStore.ts:69-76 | over every run the lag list has one entry per stream and group: the latest payload of the run for it |
| HealthStore.DuplicateDelivery | packages/dashboard/src/stores/healthStore.ts:57-76 | delivering a message twice in a row is delivering it once |
| HealthStore.LateRedelivery | packages/dashboard/src/stores/healthStore.ts:69-76 | delivering an alert again after any run leaves the represented map as it is if and only if it is still the latest for its stream and group |
| HealthStore.HealthStore.UpdateCircuitBreakerState | packages/dashboard/src/stores/healthStore.ts:57-67 | the breakers of that name updated and the banner recomputed |
| HealthStore.HealthStore.UpdateConsumerLag | packages/dashboard/src/stores/healthStore.ts:69-76 | the entry of that stream and group replaced and moved to the end |
| HealthStore.HealthStore.OnSnapshot | packages/dashboard/src/stores/healthStore.ts:108-122 | local then remote breakers, or none when they could not be fetched, and the banner recomputed |

## Left out

- React rendering, forms, routing, charts, HTTP endpoints, axios, socket.io and Redis internals: only the steps they can take appear, as events.
- Trading logic, risk manager, executor, strategy engine and backtester: not part of these components.
- Clocks and calendars: the instant of a timestamp is an arbitrary function of its text; invalid dates are not modelled.
- Floating point: prices, sizes and speeds are reals, so rounding, NaN and infinities are not modelled.
- Locale collation: `localeCompare` is an arbitrary total preorder; `Array.prototype.sort` is a stable sort, shown to determine the result uniquely.
- Replay: candles that arrive live while a replay runs; the replay is the only writer of the chart.
- WebSocket: channel subscriptions, dispatch and reconnect callbacks, which are plain maps walked in insertion order.
- Requests parked on a refresh resume in one step when it settles; the browser resumes them one after another in the same turn.
- There is no bound on repeated 401s of one request, since the code has none.
- Logout, other browser tabs that change the stored scope, login responses in flight, and edits of the account list by removal or relabelling.
- The user switcher: choosing the admin's own id is the choice `None`; the user list itself is not modelled.
- Autopilot: payload values for `enabled` that are not booleans, ids that are not strings, and exceptions in callbacks (which the code swallows).
- Autopilot: one writer per account at a time; two writers that interleave their set and publish can disagree with the key. A listener thread ends in one step.
- Agents: refetching; timestamps and generated ids of feed entries are carried as given.
- Health: the service list, `loading` and `lastRefresh`.
- Signals: `loading`, `error`, the selected signal, and normalisation of raw signals.
- Live panels: arrivals before the fetched start list, which that list overwrites.
- Stores `strategyStore`, `themeStore`, `watchlistStore`, `instrumentStore` and the remaining fetchers: field-by-field copies.
