# Alert pipeline: model and proofs

Agents watch a machine and raise alerts; a collector keeps the set of alerts that are firing; browsers
show it. These Dafny modules model that pipeline as communicating state machines and prove what holds
over whole runs of it. `dafny verify dfyconfig.toml` checks everything.

An alert travels like this. A module of the agent asks its `AlertTracker` (module `Tracker`) whether a
detection or a recovery is worth an alert. The alert goes onto one of two bounded lanes and over the
connection (`Transport`). The collector applies it to its firing map and to a per-host counter, under two
locks, while other agents, syslog senders, operators and the offline watcher do the same (`Collector`; the
tasks as the source writes them are in `Tasks`, their interleaving is the machine in `Collector`). Changes
are broadcast to browsers, each of which keeps a copy (`Gui`, `Replica`). `Pipeline` puts the four together.

| module | what it is about |
|---|---|
| `Shared` | alerts, builders, fingerprints |
| `Tracker` | the dedup machine, its history, its timers |
| `Transport`, `Reconnects` | two lanes, loss, priority, order across connections, reconnect backoff |
| `Collector`, `Tasks` | shared maps, the interleaved machine, and the tasks written out |
| `Ledger` | what the firing map holds and what is broadcast, against what was reported |
| `Counting` | the per-host counter against the firing map |
| `Hosts` | what the collector knows of a host, read off what it heard |
| `Watcher`, `Broadcasts`, `Overlapping` | the offline watcher over whole runs, what browsers are told of it, and when exactly that is out of order |
| `Locks` | deadlock freedom |
| `Gui`, `Replica`, `Races` | the board of a browser, its agreement with the collector, and when exactly it is lost |
| `Pipeline`, `Lanes` | tracker, lanes, collector and browser together, and when exactly they agree |
| `Windows`, `Psi`, `Nic` | modules of the agent on top of the tracker |
| `Webhook` | rate limiter and retry |
| `Timestamps`, `Store` | timestamps compared as text, and the history table |
| `Inlet` | which temperature row is the inlet |

Main results:

- `Pipeline.EndToEndAgreement`: if nothing is lost, all severities of a fingerprint go by one lane, and nobody
  else touches this tracker's fingerprints, then after any interleaving, reconnects at idle moments included, once
  everything is delivered, tracker, collector and browser agree on it. `Lanes.OneLaneExactly`: one lane is
  exactly what it takes. If a fingerprint may be observed as critical and as something milder, there is a
  run from the start, with nothing lost, that ends with the collector keeping an alert that the tracker has
  closed: a resolve carries the severity of the first observe, so it can take the fast lane and overtake
  a later, milder firing. In this code base only the tracker's interface admits that input: the only
  fingerprints that a module resolves are `psi_high` (agent/src/modules/mempressure.rs:90), `link_down`
  (agent/src/modules/network_nic.rs:185) and `critical_warning` (agent/src/modules/nvme.rs:134), and each is
  observed with one severity.
- `Counting.CountConservation`: at every reachable interleaved state, for every host id, the counter plus
  the changes it never saw is the number of firing alerts plus operator resolves under way plus past
  resolves by the watcher. `Counting.NeverUnderReports`: it never misses a change of a host unless a syslog
  alert came in for the host while it was not registered. Only the collector's interface admits that input:
  syslog senders go by their peer address (collector/src/syslog_in.rs:34, 57), agents by their machine id or a
  name beginning with `hn-` (agent/src/host.rs:21-30), so a sender does not register.
- `Ledger.FiringIsLastReport`: in every run the firing map holds under each fingerprint exactly the last alert
  reported with it, and by `Ledger.EachReportToldOnce` every report is broadcast exactly once.
- `Replica.ReplicaAgrees`: the browser agrees with the collector if three windows stay shut.
  `Races.RaceExactly`, `Races.ClearExactly` and `Replica.GapExactly` say when exactly each window does harm;
  `RaceLoses`, `ClearLoses` and `GapLoses` are runs from the start that fall into them; and
  `Races.RunExactly` holds of every run, calm or not.
- `Overlapping.OverlapExactly`: two `host_offline` firings are separated by a resolve in what is broadcast,
  except exactly where an operator's resolve of the alert overlaps with the watcher's change of it.
  `Hosts.FiringMeansSilence`: in every run such a firing comes of a tick at whose start nothing had been heard
  of the host for offline_after_s + 1 seconds.
- `Reconnects.CleanBreakExactly`: across reconnects a lane keeps its order exactly as long as the connection
  breaks with no message of the lane unread.
- `Tracker.TrackerRefinesHistory` and `Tracker.DecisionsFollowHistory`: the tracker's map, and every alert
  it hands back, are functions of the calls made so far.
- `Locks.DeadlockFree`, `Transport.LaneOrder`, `Transport.OvertakenAtMostOnce`, `Watcher.OfflineDiscipline`,
  `Nic.LinkDownTracked`, `Webhook.RateHolds`, `Timestamps.TextOrderIsTimeOrder`, `Store.TableHoldsSurvivors`.

Methods follow the source's own statements and are proved equal to functions on values; the theorems are
about those functions. `now` parameters are clock readings; `Since` saturates at zero, as
`Instant::duration_since` does, so a reading taken before the lock may be older than what is stored.

Where the code and its comments differ, the model follows the code:

- agent/src/bus.rs:54-56 says that overflow drops the oldest message; lines 87-90 drop the new one.
- collector/src/state.rs:64-65 says that `apply_alert` returns true for a new alert or a change of state;
  it returns true for every repeat of a firing alert as well, and repeats are broadcast.
- collector/src/main.rs:158-168 resolves `host_offline` without lowering the host's counter, which
  `apply_alert` raised (`Counting.WatcherLeavesCountHigh`).
- agent/src/modules/network_nic.rs:160-161 says that an interface coming up is resolved; the first "up" of a
  session resolves nothing, so an alert from before a restart of the session stays (`Nic.StaleAfterRestart`).

## Model

| member | source | states |
|---|---|---|
| Shared.FingerprintInjective | shared/src/lib.rs:280-288 | with bar-free host id, category and metric, equal fingerprints mean equal fields, whatever the device contains; a missing device counts as "-" |
| Shared.HostIdDetermined | shared/src/lib.rs:280-288 | a bar-free host id can be read back off a fingerprint whatever the other fields are |
| Shared.FingerprintCollisions | shared/src/lib.rs:280-288 | a bar in the host id, or a device named "-", does make different alerts collide |
| Shared.HostOfWellFormed | shared/src/lib.rs:280-288 | the text before the first bar is the host id |
| Tracker.AlertTracker.Observe | agent/src/state.rs:63-107 | the map stays the one that the calls made so far determine, and the answer is the last event of their history |
| Tracker.AlertTracker.ObserveOk | agent/src/state.rs:111-130 | the same for an OK sample |
| Tracker.AlertTracker.ForceResolve | agent/src/state.rs:135-139 | the same for a forced resolve |
| Tracker.TrackerRefinesHistory | agent/src/state.rs:63-139 | after any calls an entry exists iff there was an observe since the last close; its count is the number of those observes, severity and template come from the first, last_emitted from the last raise, ok_since from the first OK after the last observe |
| Tracker.DecisionsFollowHistory | agent/src/state.rs:63-174 | exactly when each call hands back an alert, and which, field by field: an observe is suppressed iff an alert is open and younger than re_notify; a resolve needs an OK sample at least recovery old; a firing alert says what its builder says, a resolve what the first observe of the episode said; both carry the number of observes of the episode and the time of the call |
| Tracker.ResolveNeedsQuietStretch | agent/src/state.rs:111-130 | a resolve by observe_ok ends a stretch of at least recovery between two OK samples with no observe inside |
| Tracker.RaisesSpaced | agent/src/state.rs:67-80 | n firing alerts of one episode span at least (n-1) times re_notify |
| Tracker.EmissionPattern | agent/src/state.rs:63-139 | a Resolved is only ever emitted after a Firing with no Resolved in between |
| Tracker.AlwaysCoherent | agent/src/state.rs:81-104 | every key is the fingerprint of the template stored under it |
| Tracker.EmissionsCoherent | agent/src/state.rs:142-150 | an emitted alert carries the fingerprint that was asked about, which is that of its own fields, so a Resolved names the Firing it closes |
| Tracker.Ask | agent/src/modules/mempressure.rs:82-92 | a module sends on exactly the alerts that its calls hand back, in order |
| Transport.AgentLink.Send | agent/src/bus.rs:57-91 | in maintenance alerts, and only they, are dropped; critical alerts, and only they, go by the critical lane; what goes by a lane is put behind it if there is room and is lost otherwise; the other lane is untouched |
| Transport.AgentLink.Poll | agent/src/transport.rs:75-84 | one turn of the biased select: the critical lane first |
| Transport.AgentLink.Ship | agent/src/transport.rs:101-113 | a message in hand is written or lost with the connection |
| Transport.Channel.TrySend | agent/src/bus.rs:87-90 | a full channel keeps its contents and refuses the new message |
| Transport.LaneOrder | agent/src/transport.rs:66-113 | whatever overflows, fails and reconnects, of the messages handled while their connection lasts what arrives from a lane is a subsequence of what was sent on it: no duplicate, no reordering |
| Reconnects.LaneOrderAcross | collector/src/ws_ingest.rs:27-36 | with old connections' tasks still handling unread frames at any later time, the same holds of all that is handled of a lane as long as every break finds no message of the lane unread |
| Reconnects.CleanBreakExactly | collector/src/ws_ingest.rs:27-36 | after such a run, a break keeps the order, however the run goes on with clean breaks, iff it is clean; otherwise a continuation handles a new message before an old one |
| Transport.OnlyRefusedIsLost | agent/src/bus.rs:57-91 | as long as the connection lasts, whatever overflows: arrived, under way and queued messages of a lane are together exactly, in order, those that found room when they were sent and were not alerts in maintenance |
| Transport.NothingLost | agent/src/transport.rs:66-113 | so without overflow, break or suppressed alert they are exactly those sent |
| Transport.NoAlertInMaintenance | agent/src/bus.rs:57-67 | with the maintenance flag no alert is ever queued, in hand, on the wire or received, in any run |
| Transport.QueuedStays | agent/src/bus.rs:87-90 | a queued message of either lane is never displaced, however full the lane: overflow loses only the new message |
| Transport.WaitingCritical | agent/src/transport.rs:75-84 | while a queued critical message waits, the only normal message written is the one already in hand |
| Transport.OvertakenAtMostOnce | agent/src/transport.rs:75-84 | a queued critical message is overtaken by at most one normal message whatever the backlog, and is what is written next once its predecessors are gone |
| Transport.Reconnect | agent/src/transport.rs:43-62 | the sleep after each connect attempt is the k-th of its streak of failures, and with minimum <= maximum it is min(2^k times the minimum, the maximum) |
| Transport.SleepClosedForm | agent/src/transport.rs:43-62 | for any bounds, the k-th sleep from the second on is the minimum doubled k times and capped, despite saturation |
| Transport.BackoffClosedForm | agent/src/transport.rs:43-62 | the first sleep, too, is of that form exactly when minimum <= maximum |
| Collector.AppState.ApplyAlert | collector/src/state.rs:66-86 | a firing alert is put under its fingerprint even if there is one already, a resolve takes it out; the counter moves only when a key comes or goes; the verdict is no only for a resolve of what is not firing |
| Collector.AppState.BumpHostCount | collector/src/state.rs:88-94 | the counter of a known host moves by delta, clamped at zero; unknown hosts are ignored |
| Collector.AppState.TouchHost | collector/src/state.rs:96-114 | last_seen and name are set; a new host starts at zero, out of maintenance |
| Collector.AppState.RegisterHello | collector/src/state.rs:116-137 | name and maintenance are set; the counter survives |
| Collector.AppState.TakeFiring | collector/src/http.rs:114-119 | first half of an operator's resolve: the key is taken out, or nothing happens |
| Collector.AppState.DropOne | collector/src/http.rs:122-127 | second half: the counter goes down unless it is zero |
| Collector.OfflineExactly | collector/src/main.rs:131 | for every setting: a host is judged offline exactly when its silence is at least offline_after_s + 1 seconds, or, for a setting of 2^63 and above, longer than the negative number that the cast makes of it |
| Ledger.FiringIsLastReport | collector/src/state.rs:66-86 | in every run, however the tasks interleave, the map holds under a fingerprint exactly the last alert reported with it, if that is a firing one; reported are the alerts applied, and those that operators and the watcher make, field by field |
| Ledger.EachReportToldOnce | collector/src/ws_ingest.rs:87-93 | in every run, every alert has been reported as often as it has been broadcast plus the tasks that are about to broadcast it: nothing told twice, made up or forgotten |
| Ledger.HeldWasRead | collector/src/ws_ingest.rs:71-93 | what a connection task applies is the alert it has read, however long it is held up in between |
| Tasks.FrameRead | collector/src/ws_ingest.rs:54-77 | what each kind of frame does to the record of its host when it is read, field by field, and to the task |
| Tasks.IngestAlert | collector/src/ws_ingest.rs:71-93 | an alert from an agent, uninterrupted, does and broadcasts what its steps in the machine do |
| Tasks.HandleSocket | collector/src/ws_ingest.rs:34-99 | the whole receive loop equals the run of its messages' steps |
| Tasks.SyslogLine | collector/src/syslog_in.rs:65-73 | the same for a parsed syslog line |
| Tasks.ApiResolve | collector/src/http.rs:110-156 | the same for an operator's resolve; unknown fingerprints are reported and change nothing |
| Tasks.OfflineWatcher.Judge | collector/src/main.rs:130-170 | one host of a tick: verdict, status broadcast, host_offline raised or removed, as the machine's watcher does alone |
| Tasks.OfflineWatcher.Tick | collector/src/main.rs:126-171 | a whole tick over the list of all hosts taken at its start equals the run of its steps |
| Collector.TickThroughout | collector/src/main.rs:129-130 | the hosts that a tick has still to look at are known ones, each once, in every run |
| Counting.CountConservation | collector/src/state.rs:66-94 | for every host id, at every interleaved state: counter + changes it never saw + insertions not yet counted = firing alerts + removals not yet counted + operator resolves under way + watcher resolves; with the lock free the counter equals the number of alerts iff the changes it never saw are as many as the last two together |
| Counting.NeverUnderReports | collector/src/syslog_in.rs:65-73 | unless a syslog alert came in for a host while it was not registered, its counter misses nothing, is at least the number of its alerts, and equals it iff no operator resolve is under way and the watcher has resolved none |
| Counting.ClampsNeverHit | collector/src/http.rs:122-127 | a counter of zero is lowered, in apply_alert or in api_resolve, only if it had missed an insertion; so never for a host without a syslog alert from before its registration |
| Counting.StepLaw | collector/src/state.rs:66-94 | every enabled step of every task keeps the count law, for every host id |
| Counting.WatcherLeavesCountHigh | collector/src/main.rs:158-168 | a run from the start in which a host says hello, goes silent, is raised, sends a heartbeat and is found online again: it is left with a counter of one and no alert |
| Counting.SyslogSenderUndercounted | collector/src/syslog_in.rs:65-73 | a syslog sender that registers after its alert has a counter of zero and an alert: such changes are really missed |
| Hosts.HostsReflectNews | collector/src/state.rs:96-137 | in every run, for every host: there is a record iff something was heard of it; last_seen is the time of its last heartbeat or accepted alert, or else the start given by its first hello; name and maintenance are those last given |
| Hosts.MaintenanceDrops | collector/src/ws_ingest.rs:71-85 | in every run: an alert is dropped without a trace iff the last hello of its host asked for maintenance; otherwise its task takes it up and its host has been heard of |
| Hosts.OfflineMeansSilence | collector/src/main.rs:127-168 | in every run, whenever the watcher looks at a host: it remembers it as offline exactly when, by what the collector had heard when the tick began, the host had been silent for too long; it tells so iff that is news, and then host_offline is in the map iff the host is offline; nothing else comes or goes |
| Hosts.TickJudgesAll | collector/src/main.rs:126-135 | in every run: once a tick is done, every host known when it began is remembered as offline iff its silence had been too long by then |
| Hosts.FiringMeansSilence | collector/src/main.rs:127-157 | in every run: host_offline comes into the map only by the watcher looking at the host, in a tick at whose start the host had been silent for too long |
| Watcher.OfflineDiscipline | collector/src/main.rs:121-171 | in every run: host_offline is in the map only while the watcher has the host down as offline; its status broadcasts on a host alternate; firings and resolves of the key, as made in the map, alternate |
| Watcher.RaisedOnVerdict | collector/src/main.rs:132-157 | host_offline comes into the map only together with an offline verdict on that host |
| Broadcasts.BroadcastsAlternate | collector/src/main.rs:142-168 | as long as no change of a host's host_offline alert is made while a broadcast about it is outstanding, what is broadcast of it alternates between firing and resolved |
| Broadcasts.OutOfTurnIsOverlap | collector/src/http.rs:114-152 | the only steps that make such a change are the watcher's raise while an operator's resolve is between its remove and its broadcast, and an operator's resolve while the watcher's raise is |
| Overlapping.OverlapExactly | collector/src/main.rs:126-168 | after a run without such a step, the next step leaves every two firings separated by a resolve, however the run goes on without one and with a clock that does not go back, iff it is not one; if it is, a continuation of heartbeats and ticks broadcasts two firings in a row |
| Overlapping.SeparatedWithoutOverlap | collector/src/main.rs:126-168 | the one direction for any continuation without such a step, whatever its clock |
| Overlapping.OverlapHappens | collector/src/http.rs:114-152 | a run from the start into such a step |
| Locks.DeadlockFree | collector/src/state.rs:48-137 | any tasks running any of the collector's operations, along any schedule: while one is unfinished, some task cannot be refused its next step, under any lock policy |
| Locks.CodeOrderly | collector/src/http.rs:114-127 | every operation takes the firing lock only with empty hands and holds the hosts lock without asking for more |
| Locks.OppositeOrderDeadlocks | collector/src/state.rs:66-94 | two tasks taking the locks in opposite orders are stuck for good |
| Gui.Page.OnMessage | gui/app.js:217-247 | the board stays the one that the messages received so far determine |
| Gui.Page.OnAlert | gui/app.js:231-243 | one alert: removed, merged with what is shown, or new |
| Gui.BoardShowsEpisodes | gui/app.js:217-247 | a fingerprint is shown iff its episode is open; shown are the last alert of the episode, the first_seen of its first, and the highest count of the episode |
| Gui.CountNeverFalls | gui/app.js:237-242 | within an episode the count on the board never falls and first_seen never moves |
| Replica.CollectorPart | collector/src/ws_subscribe.rs:23-59 | browsers, snapshots and dropped connections leave the run of the collector as it is |
| Replica.ReplicaAgrees | collector/src/ws_subscribe.rs:23-59 | after any run in which the three windows stay shut, a subscribed browser with nothing under way shows a fingerprint iff it is firing |
| Replica.StepAgrees | collector/src/ws_ingest.rs:87-93 | every single step keeps agreement, given the window it could open is shut |
| Replica.ReconnectRestores | collector/src/ws_subscribe.rs:25-32 | whatever went wrong before, a new snapshot restores agreement on a fingerprint once no broadcast on it is pending |
| Replica.GapExactly | collector/src/ws_subscribe.rs:25-32 | subscribing after the snapshot keeps agreement exactly when the last word missed in between is what the snapshot said |
| Races.RunExactly | collector/src/ws_subscribe.rs:23-59 | in every run: a browser that has received everything shows a fingerprint iff the last word sent to it says so, it is firing iff its last change says so, and so the two agree iff the last word sent is true to the last change |
| Races.RaceExactly | collector/src/ws_ingest.rs:87-93 | from agreement, a step of any task leads to agreement at every quiet point, however the tasks under way finish, iff it does not take the fingerprint in or out while a broadcast about it is pending |
| Races.ClearExactly | collector/src/http.rs:165-173 | broadcasting the clear-history snapshot keeps agreement iff the snapshot is not stale for the fingerprint |
| Races.RaceLoses | collector/src/http.rs:114-152 | a run from the start in which a resolve is broadcast before the firing it closes, and the browser keeps an alert that is gone |
| Races.ClearLoses | collector/src/http.rs:165-173 | a run from the start in which a clear-history snapshot taken before an alert wipes it off the board |
| Races.GapLoses | collector/src/ws_subscribe.rs:25-32 | a run from the start in which an alert is broadcast between snapshot and subscription and never reaches the browser |
| Pipeline.TrackerAgreement | agent/src/transport.rs:46-84 | if what is sent finds room, the connection breaks only when nothing is in hand, unread or being handled, and there is no operator and no maintenance: once both lanes are drained, for every interleaving, the collector has firing, of the fingerprints of this tracker that go by one lane, exactly those that the tracker holds |
| Pipeline.EndToEndAgreement | gui/app.js:217-247 | and so does the browser's board, once it has received everything and if its two windows stay shut |
| Pipeline.StepInv | agent/src/bus.rs:83-90 | every step of the chain keeps: the firing map, brought up to date by the messages on the way, holds a key iff the tracker does |
| Pipeline.ChainIsItsParts | agent/src/transport.rs:66-113 | in every run of the chain the tracker is as its calls make it, the link as what is sent and done on it makes it, and collector and browser as their steps make them: what holds of every run of a part holds in the chain |
| Lanes.ThreeCalls | agent/src/state.rs:71-104 | observed as critical, then milder, then resolved: all three calls hand back an alert, and the resolve is critical |
| Lanes.MixedLanesDisagree | agent/src/bus.rs:83-90 | a run of the whole chain from the start, nothing lost, that ends drained with the collector keeping a fingerprint that the tracker has closed |
| Lanes.OneLaneExactly | agent/src/bus.rs:83-86 | every lossless drained run ends in agreement on a fingerprint iff all severities it may be observed with go by one lane |
| Windows.PopOld | agent/src/modules/mempressure.rs:166-172 | popping old entries off the front of a time-ordered deque leaves exactly the recent ones |
| Windows.OomLoop | agent/src/modules/mempressure.rs:129-195 | oom_storm is observed on a kill line iff the number of kill lines in the closed window that ends with it, as u32, reaches the threshold |
| Windows.AerLoop | agent/src/modules/pcie_aer.rs:74-103 | corrected_rate_high is observed on a corrected error iff the number of those in the last 60 s reaches the threshold |
| Windows.RecentLater | agent/src/modules/mempressure.rs:166-172 | what was dropped for being old would be dropped later too |
| Psi.PsiLoop | agent/src/modules/mempressure.rs:45-95 | the loop makes exactly the calls that its samples determine, and sends what they hand back |
| Psi.ObservedAfterSustainedRun | agent/src/modules/mempressure.rs:63-93 | all that a sample asks: psi_high is observed, at the time of the check, iff the sample ends an unbroken run of high samples whose first reading is at least sustain_s old; a low sample reports it calm; a failed read asks nothing |
| Psi.ResolvedAfterRecovery | agent/src/modules/mempressure.rs:39-93 | psi_high is resolved only on a calm tick that ends at least recovery of calm with no sustained breach in it, whatever the OOM loop does on the shared tracker |
| Nic.RunRtnetlink | agent/src/modules/network_nic.rs:92-237 | a session makes exactly the calls that its messages determine |
| Nic.OnLink | agent/src/modules/network_nic.rs:121-204 | one message: the three maps and the calls, in order |
| Nic.SessionHeard | agent/src/modules/network_nic.rs:121-152 | a session holds a state of an interface iff a message about it has brought one while it went by a name that is not ignored, and it is that of the last such message |
| Nic.RecordedExactly | agent/src/modules/network_nic.rs:138-156 | a message is acted upon iff it is such a message and the one before it, if any, brought another state |
| Nic.AskedExactly | agent/src/modules/network_nic.rs:149-237 | all that a message asks, call by call, read off the messages of the session alone |
| Nic.LinkDownTracked | agent/src/modules/network_nic.rs:149-188 | with stable one-to-one names, from any tracker, and whatever the counter loop calls on the shared tracker meanwhile: link_down is tracked iff the last state heard of the interface is not "up", or it was tracked before and the session has heard nothing but "up" |
| Nic.LinkDownFromEmpty | agent/src/modules/network_nic.rs:149-188 | from an empty tracker: iff the last state heard is not "up" |
| Nic.ReturnResolvesOnce | agent/src/modules/network_nic.rs:183-188 | a message emits exactly one resolve, of that interface's link_down, if it brings "up" and the last state heard before was another, and none otherwise |
| Nic.StaleAfterRestart | agent/src/modules/network_nic.rs:79-93 | a link down in one session and up from the start of the next stays tracked |
| Nic.FlappingExactly | agent/src/modules/network_nic.rs:190-204 | link_flapping is observed on a message iff it brings a new state and the number of messages about the interface in the closed window that did, as u32, reaches the threshold |
| Webhook.Passes | collector/src/webhooks.rs:159-171 | severity order, state flags and the two patterns, spelled out |
| Webhook.Deliver | collector/src/webhooks.rs:170-200 | two posts iff the first answer is 429, 5xx or a network error, else one; success iff one of them is accepted |
| Webhook.RunOne | collector/src/webhooks.rs:100-141 | an alert is admitted iff it passes the filters and fewer than the rate were admitted in the minute before; the posts made are exactly those of the admitted alerts, or none for an unknown kind |
| Webhook.RateHolds | collector/src/webhooks.rs:123-130 | no closed interval of 60 seconds holds more admissions than the rate |
| Webhook.DroppedOnlyWhenFull | collector/src/webhooks.rs:123-130 | an alert that passes the filters is dropped iff exactly rate alerts were admitted in the 60 seconds before it |
| Timestamps.TextOrderIsTimeOrder | collector/src/store.rs:135 | for all UTC instants of the years 0000-9999, with 0, 3, 6 or 9 fraction digits: byte order of the texts is chronological order |
| Timestamps.FieldsAreChronology | collector/src/store.rs:114 | comparing date and clock field by field is comparing nanosecond counts, leap years included |
| Timestamps.TailOrder | collector/src/store.rs:135 | fractions of different lengths, each followed by the offset, are ordered as the nanoseconds are |
| Store.AlertStore.Insert | collector/src/store.rs:128-146 | a row is put in, replacing one of the same id |
| Store.AlertStore.Prune | collector/src/store.rs:114-118 | the delete by text keeps exactly the rows at or after the cutoff |
| Store.AlertStore.ClearAll | collector/src/store.rs:100-107 | the table is empty afterwards |
| Store.TableHoldsSurvivors | collector/src/store.rs:108-146 | after any statements, an id is in the table iff its last insert has not been cleared nor been older, in time, than a cutoff, and then it is that row |
| Store.ListedNewestFirst | collector/src/store.rs:82-97 | ordering by the text column is listing newest first |
| Inlet.Priority | agent/src/modules/thermal.rs:204-227 | which names reach each tier: ambient; room or air inlet; chassis inlets not of a power supply; other inlets not of a power supply; and power supplies' inlets; all other names are passed over |
| Inlet.SortedIsStable | agent/src/modules/thermal.rs:255 | the sort is descending and keeps the order of rows of equal priority |
| Inlet.Reading | agent/src/modules/thermal.rs:194-253 | the last reading of a line from -5 up to but not including 125 degrees, or none if there is none |
| Inlet.ReadInletTemp | agent/src/modules/thermal.rs:233-272 | that reading of the earliest line among those of highest priority that have both a priority and a reading, or none if no line has |
| Inlet.PsuOnlyIfNothingElse | agent/src/modules/thermal.rs:239-272 | a power supply's inlet is chosen exactly when every usable line is one |

## Left out

- Sockets, TLS, JSON, SQLite, netlink, D-Bus and subprocess calls: foreign code. The model starts from the decoded message, sample, line or row.
- Alert ids, titles, messages, `raw`, tags, vendor, `primary_ip`, `subsystem`, `device_model`, values and thresholds: they do not drive control flow.
- Widths of counters: `occurrences` (u64), `firing_count` (u32, added as i32) are unbounded here. Lengths compared `as u32` and the saturating backoff are modelled as written.
- Regular expressions and name filters are parameters: arbitrary predicates on text. The configured state list of a webhook is two flags.
- The watcher's alert takes first_seen and last_seen from the clock a moment after ts; here the three are one reading.
- Fairness and scheduling: `recv` is ready exactly when its queue is not empty. Keepalive pings are not modelled.
- The maintenance check of an incoming alert and the touch that follows it are one step; the lookup of a host's address in between is not modelled.
- The status broadcast on disconnect, hellos and heartbeats on the feed, and the browser's host list, history and notifications: only alerts and snapshots bear on the board of alerts.
- Several connections of one agent in `Pipeline`: the connection breaks only when its task has finished, so one task at a time serves the agent. What lagging tasks of old connections do to the order of messages is in `Reconnects`.
- Times are integers without bounds; chrono's end about 262,000 years from now. Heartbeats carry the agent's clock, which need not agree with the collector's. With offline_after_s of 2^63 and above, a host counts as back online only if its clock is ahead.
- Operations on `Instant` that would underflow shortly after boot (`now - window`) panic in the source; times here are such that they do not.
- A webhook receiver or browser that lags behind the broadcast channel: the browser's connection may drop at any step; a lagging webhook just sees fewer alerts.
- The interface window keeps times only, for the up flag is used for the message text; the counter loop is present only as calls about other metrics on the shared tracker.
- chrono's leap second (nanoseconds of 10^9 and more) and years outside 0000-9999, which are written with a sign.
- Rows whose body does not parse are left out of `list_recent` by the source; `ListedNewestFirst` is about the query.
- Lower-casing and trimming of sensor names happen before `Inlet.Priority`.
- Single-threshold pollers, kernel log parsing, memory ECC pairing, GUI rendering, configuration and deployment: one-branch claims, or no effect on alerts.
