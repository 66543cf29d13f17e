# AiBooster for Linux: a verified model

AiBooster is a desktop client that supervises a VPN engine as a child process, redirects the desktop's proxy
settings at it, and keeps a list of subscription profiles and their nodes. This project models the parts in
which several state machines, a crash or an encoding have to agree, and proves what each of them promises.
`dafny verify dfyconfig.toml` checks all of it.

## How the modules fit together

| area | modules |
|---|---|
| the client from launch to exit | `ClientRuns` drives the three layers of `ConnectionStack`; their joint behaviour is the session of `Session`, whose runs `SessionRuns`, `SessionSettles` and `SessionLaws` reason about |
| the desktop redirect | `DesktopProxy` (settings, restore file, atomic steps), `CrashSafety` (runs with kills), `Switchover` (what traffic sees), `Faults` (what is left when a part fails), `SystemProxyModel` (the object, step by step), `Redirection` (what the stack relies on) |
| nodes and probes | `ProxyNodes`, `NodeReading` (what lines and bodies give), `ProbePool` |
| profiles | `Profiles` (the list as a value), `ProfileStore` (the model object and the node list bound to it) |
| text formats | `Base64`, `Subscription`, `ShadowsocksLinks`, `DeepLink`, `Percent`, `Utf8`, `Decimal`, `Text` |
| the log viewer | `LogTail` |

**The client.** `ConnectionModel`, `VpnCore`, `CoreProcess` and `FreeProfiles` are classes with the fields of the
original. They call each other in both directions, inside one event: a disconnect ends in a report that may start
the next connection before it returns. `ConnectionModel.Joint` says how their states relate between events, and
`Client.Handle` proves that every event keeps it and that the layers together do one `Session.Step`: same next
phase, same effects, same order. All results about sessions therefore hold of the layers. The system proxy in the
stack is the real one of `SystemProxyModel`, so a kill at any of its atomic steps, in any run, is covered too
(`Client.EveryMomentIsRecoverable`).

`SessionLaws` says for each event, after any run, where the session ends up and what is seen to happen.

**The desktop redirect.** A small write-ahead protocol: capture, file, redirect key by key, and later restore and
remove the file. `CrashSafety` proves the protocol over every interleaving with kills, including kills of the
recovery; `SystemProxyModel` proves that the methods perform exactly the steps that protocol consists of.

**Probes and profiles.** The probe pool is re-entered while it is being filled; its methods are proved against a
strong invariant at rest and a weaker one inside. The profile list keeps its invariant over every edit, and the node
list bound to it shows the active profile's nodes after every event.

**Formats.** Qt's codecs are modelled from RFC 4648, RFC 3986 and UTF-8, and the client's own normalisation, splitting
and joining is proved on top of them.

Every lemma has automatic induction switched off; each proof by induction is written out.

## What the proofs found

- **A leading byte order mark is lost.** Reading bytes as UTF-8 drops a leading U+FEFF. Base64 import, deep links and
  Shadowsocks names therefore come back unchanged exactly when they do not start with one (`Base64.ImportInverts`,
  `DeepLink.DeepLinkExact`, `ShadowsocksLinks.NameIsExact`).
- **More than 500 new log lines in one poll** ask the list to drop more rows than it holds
  (`LogTail.FirstPollOverruns`, `LogTail.LogsModel.Poll`); up to 500, tailing equals one batch read.
- **One engine start can fail twice.** When the readiness time-out ends an engine whose start has still to fail, that
  failure surfaces inside the wait: it is signalled, overwrites the time-out's message, and is signalled again. This is
  the only way (`SessionRuns.EveryRunIsSafe`), and `SessionRuns.SilentEngineFails` is a run from launch that takes it.
- **A retry can lose its reconnect.** The same late failure inside a disconnect clears the pending reconnect
  (`SessionSettles.RetryReconnects` gives the exact condition, `SessionSettles.RetryIsLost` a run).
- **Edits between a crash and the next launch are overwritten** by the recovery (`CrashSafety.EditIsClobbered`), which is
  why user edits are admitted in runs only while no complete restore file exists.
- **Failed captures.** A key that could not be read is saved as empty. Restoring that writes the mode "none", the KDE type "0",
  and empty hosts and KDE addresses, and leaves ports and the ignore list as they are. `Faults.LossyCaptureExact` says when
  nothing is lost, for a kill anywhere in apply.
- **A flush that is not there.** The comment at src/platform/SystemProxy.cpp:150-151 speaks of paying for a flush against a power
  cut; the code closes the file without one. `Faults.PowerCutExact` says when losing the unflushed file does no harm.
- **A failed restore forgets.** revert, a failed apply and recovery remove the file whether or not their writes succeeded
  (src/platform/SystemProxy.cpp:336-340, 363-368, 387-392); `Faults.FailedRestoreExact` says when the settings are right all the same.
- **The single switch-over step** holds for users who do not route manually; the comment at
  src/platform/SystemProxy.cpp:198-199 does not say so (`Switchover.SingleSwitchOver` gives the exact condition).

## Assumptions

- Outside `Faults`, every key is captured successfully and the writes of a restore succeed, while each write of an apply may
  fail, or land although it is reported failed. gsettings never reports an empty mode, port or ignore list. For KDE a read tool
  exists, a missing key equals an empty one and an empty `ProxyType` means `0`.
- Outside `Faults`, a restore file that exists can be opened at launch and survives a power cut. Truncating, writing and removing it are atomic steps; a torn file does not parse.
- One instance of the client runs, and nobody else edits the proxy keys while a complete restore file exists.
- After the engine is killed it is reaped inside the wait. Each exit, and each start failure, is delivered once; a start failure
  that is still due when the engine is stopped may be delivered inside that wait.
- The profiles file can be written whenever it is saved. The stored list satisfies the invariant when it is first loaded.
- The settings the client reads within one event (profile, port, proxy wish, files, tools) do not change during that event.

## Model

| member | source | states |
|---|---|---|
| `ClientRuns.Client.constructor` | src/main.cpp:75-84 | recovery runs before anything can connect; from any machine that was safe so far the client starts idle, with the user's settings in place, no restore file, all layers in step |
| `ClientRuns.Client.Handle` | src/models/connectionmodel.cpp:110-245 | any event, in any surroundings, takes the three layers from the states one session phase describes to those of the next, and they do exactly the effects of that session step, in order |
| `ClientRuns.Client.EverySessionIsSafe` | src/models/vpncore.cpp:98-135 | at every moment of every run all ordering rules were obeyed, what the layers show is where the run leads, and the two messages that guard against a second start were never sent |
| `ClientRuns.Client.EveryMomentIsRecoverable` | src/platform/SystemProxy.cpp:373-394 | kill the client after any atomic step it ever performed on the desktop: the recovery of the next launch puts back every user setting and leaves no file |
| `ClientRuns.Client.Quit` | src/main.cpp:113-120 | the revert at exit, from any phase, leaves the user's settings and no file, and every step of it is safe against a kill |
| `SessionRuns.NeverRefused` | src/models/connectionmodel.cpp:110-191 | no run contains either of the two refusals, as a report or as an engine failure: the guards against a second attempt and a second engine are never taken |
| `SessionLaws.ButtonDisconnects` | src/models/connectionmodel.cpp:117-120 | after any run that is connected, the button ends idle: restored if redirected, engine stopped, disconnection reported; nothing is requested or started; exact effects, the late start failure included |
| `SessionLaws.RetryIsTwoPresses` | src/models/connectionmodel.cpp:126-143 | after any run that is connected, a retry is the button pressed twice, or once when the late start failure is seen; phase and effects |
| `SessionLaws.ButtonsWait` | src/models/connectionmodel.cpp:110-155 | while an attempt is under way the button and the retry do nothing; the automatic connect does nothing unless idle; dismissing only clears the banner |
| `SessionLaws.IdleConnects` | src/models/connectionmodel.cpp:157-191 | from idle, button, retry and automatic connect do the same: the profile, with content, is launched on the port of the settings or meets the first obstacle, each with its own report; else the first endpoint is asked; else the lack of one is reported |
| `SessionLaws.ReplyIsFollowed` | src/services/FreeProfiles.cpp:84-130 | a failure asks the next endpoint or ends the attempt; an index asks its subscription; a configuration is launched, or meets the first obstacle |
| `SessionLaws.TickIsAnswered` | src/core/CoreProcess.cpp:187-234 | an open port connects, redirected exactly when wished and working; otherwise one more attempt up to 480, then the time-out with the last 4096 characters of output |
| `SessionLaws.LossIsReported` | src/models/vpncore.cpp:277-286 | an engine that ends by itself, starting or connected: restored if redirected, the failure with the end of its output reported, idle |
| `SessionLaws.NewsIsKept` | src/core/CoreProcess.cpp:236-244 | news that the child runs or wrote something changes only that record |
| `SessionLaws.StraysAreIgnored` | src/core/CoreProcess.cpp:187-198 | an event nobody waits for changes nothing and shows nothing |
| `ConnectionStack.ConnectionModel.LayersAgree` | src/models/connectionmodel.cpp:110-191 | the joint invariant, read out: connected, running and running coincide; connecting means exactly one of an outstanding request and a starting engine; no layer rests in a passing state; no reconnect is pending; a redirect implies a live engine and routes to its port; otherwise the settings are the user's; and what the effects announced of desktop and engine is what is the case |
| `ConnectionStack.ConnectionModel.NowShows` | src/models/connectionmodel.cpp:110-191 | what phase, request, attempts, port, output and redirect the session shows is what status, pending request and the fields of the layers are |
| `ConnectionStack.ConnectionModel.ToggleConnection` | src/models/connectionmodel.cpp:110-124 | the button: connected, it ends disconnected with no engine and no redirect; connecting, it changes nothing; in every case the joint invariant holds again, with phase and effects of the session's toggle step |
| `ConnectionStack.ConnectionModel.RetryConnection` | src/models/connectionmodel.cpp:126-143 | the banner's retry: clears the banner, connects from idle, disconnects and reconnects from connected, does nothing in between |
| `ConnectionStack.ConnectionModel.AutoConnectAtLaunch` | src/models/connectionmodel.cpp:145-155 | connects from idle only |
| `ConnectionStack.ConnectionModel.StartConnect` | src/models/connectionmodel.cpp:157-171 | a profile with content wins over the free nodes; the attempt is under way or refused, and the layers agree again |
| `ConnectionStack.ConnectionModel.ConnectFree` | src/models/connectionmodel.cpp:173-191 | asks the first endpoint, or reports that none is configured |
| `ConnectionStack.ConnectionModel.OnFetched` | src/models/connectionmodel.cpp:181-185 | a fetched configuration is launched only while the attempt still stands |
| `ConnectionStack.ConnectionModel.OnFetchError` | src/models/connectionmodel.cpp:186-190 | a fetch error ends the attempt only while it still stands |
| `ConnectionStack.ConnectionModel.OnVpnConnected` | src/models/connectionmodel.cpp:193-216 | connected, and the banner is cleared |
| `ConnectionStack.ConnectionModel.OnVpnDisconnected` | src/models/connectionmodel.cpp:218-234 | disconnected; with a pending retry the flag is dropped and a whole new attempt is made inside the call |
| `ConnectionStack.ConnectionModel.OnVpnError` | src/models/connectionmodel.cpp:236-245 | disconnected, no reconnect pending, the banner shows this failure |
| `ConnectionStack.ConnectionModel.DismissSessionNotice` | src/models/connectionmodel.cpp:105-108 | clears the banner and nothing else |
| `ConnectionStack.VpnCore.ConnectVpnWithConfig` | src/models/vpncore.cpp:98-112 | busy: the refusal is reported and nothing below changes; at rest: the launch step of the session |
| `ConnectionStack.VpnCore.LaunchEngine` | src/models/vpncore.cpp:199-255 | each failed preparation is reported in turn; port and proxy wish are taken over before the engine is asked to start |
| `ConnectionStack.VpnCore.HandleEngineReady` | src/models/vpncore.cpp:257-275 | the desktop is redirected if wished, exactly when every command succeeded; a failed redirect leaves a working connection |
| `ConnectionStack.VpnCore.HandleEngineFailure` | src/models/vpncore.cpp:277-286 | the redirect is undone before the failure is reported, and a connection's end is reported after it; the engine's record is untouched |
| `ConnectionStack.VpnCore.DisconnectVpn` | src/models/vpncore.cpp:114-127 | the whole orderly end, a start failure surfacing in the wait included; nothing when there is nothing to end |
| `ConnectionStack.VpnCore.Teardown` | src/models/vpncore.cpp:129-135 | desktop first, engine second; afterwards the engine is stopped and nothing is redirected |
| `ConnectionStack.VpnCore.Fail` | src/models/vpncore.cpp:77-82 | error state, recorded message, one report to the layer above |
| `ConnectionStack.VpnCore.UndoRedirect` | src/platform/SystemProxy.cpp:350-371 | whatever was applied is put back, the machine was safe at every step of it, no file is left, and the restore is announced once it is done |
| `ConnectionStack.CoreProcess.Start` | src/core/CoreProcess.cpp:125-166 | already running: refused without touching the child; no program or no process: one failure; otherwise a polled, starting engine with an empty tail |
| `ConnectionStack.CoreProcess.Stop` | src/core/CoreProcess.cpp:168-185 | stopped with no child left; a pending start failure is signalled from within the wait |
| `ConnectionStack.CoreProcess.WaitForFinished` | src/core/CoreProcess.cpp:177-184 | either the child ends in order and nothing is signalled, or its start fails and one failure goes all the way up |
| `ConnectionStack.CoreProcess.PollReadiness` | src/core/CoreProcess.cpp:187-234 | ready, another attempt, or the time-out at attempt 480; a poll of a dead child changes nothing but the timer |
| `ConnectionStack.CoreProcess.TimeOut` | src/core/CoreProcess.cpp:224-233 | the failure after the last attempt carries the tail composed before the engine was ended, unless a start failure in the wait replaced it, which is then signalled twice |
| `ConnectionStack.CoreProcess.DrainOutput` | src/core/CoreProcess.cpp:236-244 | the kept tail is the last 4096 characters of all output since the start, for any chunk |
| `ConnectionStack.CoreProcess.HandleFinished` | src/core/CoreProcess.cpp:266-287 | silent in an orderly stop; otherwise the crash or exit failure with the trimmed tail of all output, the final chunk included |
| `ConnectionStack.CoreProcess.HandleStartError` | src/core/CoreProcess.cpp:55-62 | a child that cannot be started is a failure in any state |
| `ConnectionStack.CoreProcess.Ended` | src/core/CoreProcess.cpp:266-287 | a child that ends by itself, starting or running, is the loss step of the session |
| `ConnectionStack.CoreProcess.StartFailed` | src/core/CoreProcess.cpp:55-62 | a start failure delivered by the event loop is the loss step of the session |
| `ConnectionStack.FreeProfiles.HandleReply` | src/services/FreeProfiles.cpp:84-95 | failure moves on to the next endpoint or gives up; an index leads to its subscription; a body is launched |
| `ConnectionStack.FreeProfiles.TryGet` | src/services/FreeProfiles.cpp:66-82 | one request to the address in turn; past the last one, one error |
| `ConnectionStack.FreeProfiles.Fetch` | src/services/FreeProfiles.cpp:107-130 | the configured endpoints are asked from the first; without any, the attempt is refused |
| `ConnectionStack.ConfiguredEndpoints` | src/services/FreeProfiles.cpp:41-56 | the loop collects the specified addresses, in order |
| `ConnectionStack.ConfiguredExactly` | src/services/FreeProfiles.cpp:41-56 | an address is among them if and only if it is the trimmed form of a given one, not blank and not reserved; there are at most as many as were given |
| `ConnectionStack.ConfiguredInOrder` | src/services/FreeProfiles.cpp:41-56 | each usable address that was given appears once for each time it was given, trimmed, in order |
| `SessionRuns.EveryRunIsSafe` | src/models/vpncore.cpp:114-135 | for every run from launch: redirect only at a live engine, orderly stop only after the restore, restore before any report of a loss, at most one ready per start; and at most one failure per start if and only if no step is a time-out whose wait brings up a start failure |
| `SessionRuns.StepIsSafe` | src/models/vpncore.cpp:257-286 | the same for one step from any reachable phase |
| `SessionRuns.DisconnectIsSafe` | src/models/vpncore.cpp:114-135 | the orderly end, with and without reconnect, obeys the rules |
| `SessionRuns.LoseIsSafe` | src/models/vpncore.cpp:277-286 | losing the engine obeys the rules: restored before reported |
| `SessionRuns.GiveUpIsSafe` | src/core/CoreProcess.cpp:224-233 | giving up obeys the rules; it answers the start request once exactly when no start failure surfaces in the wait |
| `SessionSettles.EveryAttemptSettles` | src/services/FreeProfiles.cpp:66-130 | a connecting attempt in which as many replies and ticks arrived as are left has become connected or idle on the way |
| `SessionSettles.AttemptIsBounded` | src/core/CoreProcess.cpp:187-234 | while connecting, every reply and every tick uses one up and nothing gives one back |
| `SessionSettles.AttemptStartsSmall` | src/core/CoreProcess.cpp:24-26 | an attempt starts with at most one reply more than there are endpoints, and 480 ticks |
| `SessionSettles.NextMoveCounts` | src/core/CoreProcess.cpp:187-234 | an attempt is never stuck: the awaited reply, the due tick or the child's end settles it or decreases the lexicographic measure |
| `SessionSettles.EndpointsInOrder` | src/services/FreeProfiles.cpp:66-96 | after k failed replies the k-th endpoint is being asked; after all of them one failure was reported, and each endpoint was asked once |
| `SessionSettles.OutputIsWhole` | src/core/CoreProcess.cpp:236-244 | while an engine lives, its recorded output is the concatenation of its chunks, whatever else happens between them |
| `SessionSettles.ChunkingDoesNotMatter` | src/core/CoreProcess.cpp:279-286 | two engines with the same total output fail with the same message, however the output arrived |
| `SessionSettles.RetryReconnects` | src/models/connectionmodel.cpp:126-143 | in any run that has reached a connection, a retry makes its new attempt if and only if the child was reported running since its launch or no start failure surfaces in the wait; otherwise it ends idle |
| `SessionSettles.RetryIsLost` | src/models/connectionmodel.cpp:126-143 | a run from launch in which a retry is lost: open at the first poll, retried before the child was reported running |
| `SessionSettles.SpawnedIsHeardOf` | src/core/CoreProcess.cpp:125-166 | whether the engine counts as started is whether that was reported since its launch |
| `SessionRuns.SilentEngineFails` | src/core/CoreProcess.cpp:187-234 | a run from launch that times out on an engine never heard of: its one start request fails twice if and only if the start failure surfaces in the wait |
| `CrashSafety.EveryRunIsSafe` | src/platform/SystemProxy.cpp:307-394 | for any interleaving of launch, apply with failing writes, revert, recovery and kills between atomic steps: a complete file holds the user's settings, and without one the live settings are the user's |
| `CrashSafety.NextKeepsInvariant` | src/platform/SystemProxy.cpp:307-394 | each such step keeps the inductive invariant |
| `CrashSafety.RecoveryRestores` | src/platform/SystemProxy.cpp:373-394 | after any such run that ends killed, one launch left to finish its recovery restores every setting and removes the file |
| `CrashSafety.ApplyIsSafe` | src/platform/SystemProxy.cpp:307-348 | every prefix of apply is safe whichever writes fail, and it ends at rest |
| `CrashSafety.RevertIsSafe` | src/platform/SystemProxy.cpp:350-371 | every prefix of revert is safe, and it ends with nothing applied |
| `CrashSafety.RecoveryIsSafe` | src/platform/SystemProxy.cpp:373-394 | every prefix of recovery is safe from any safe disk, and it ends with the user's settings and no file |
| `CrashSafety.RestoreCompletes` | src/platform/SystemProxy.cpp:204-230 | a restore from a faithful file, wherever an earlier one stopped, puts every key back |
| `CrashSafety.EditIsClobbered` | src/platform/SystemProxy.cpp:373-394 | after any edit between a crash and the next launch, recovery leaves the original value in every covered setting and the edit in every other; the edit survives if and only if it left the former alone |
| `Switchover.SingleSwitchOver` | src/platform/SystemProxy.cpp:182-202 | whichever writes of apply land, as long as the last does not, traffic goes where it went, if and only if the user was not routing manually or was already routing to this endpoint |
| `Switchover.SwitchOverRedirects` | src/platform/SystemProxy.cpp:253-279 | whichever writes land, the desktop ends up routing to our endpoint if and only if every lost write was not needed |
| `Switchover.OursIsRouted` | src/platform/SystemProxy.cpp:182-202 | having the values apply writes is, key by key, to route to host and port: host and port of every channel, the exceptions and the mode, for either backend |
| `Switchover.ApplicationsFollow` | src/platform/SystemProxy.cpp:182-202 | on such a desktop the host and port an application reads for each channel, by taking the stored values apart, are the given ones |
| `Switchover.KillIsLoss` | src/platform/SystemProxy.cpp:182-202 | a kill after any number of commands leaves what losing all later ones leaves |
| `Faults.LossyCaptureExact` | src/platform/SystemProxy.cpp:160-180 | with captures that failed for some keys, wherever apply was killed and whichever of its writes landed, recovery restores the user's settings if and only if every lost key had what an empty capture leaves |
| `Faults.PowerCutExact` | src/platform/SystemProxy.cpp:143-153 | a power cut that loses or tears the unflushed restore file leaves the machine safe and recoverable if and only if every write that had landed wrote what the user had already |
| `Faults.FailedRestoreExact` | src/platform/SystemProxy.cpp:204-230 | a restore that loses writes, followed by the removal of the file, puts the user's settings back if and only if every setting whose write was lost was the user's already |
| `Faults.RestoreKeys` | src/platform/SystemProxy.cpp:204-230 | a restore of a faithful file writes the keys apply writes, in the same order, with the user's values |
| `Faults.RestoreEndsWithMode` | src/platform/SystemProxy.cpp:224-229 | every restore ends with the mode, never empty: none or 0 when the document lacks it |
| `Faults.UnopenedFileExact` | src/platform/SystemProxy.cpp:378-381 | a file that cannot be opened is removed unread; that leaves the user's settings if and only if the live ones were the user's |
| `SystemProxyModel.SystemProxy.Apply` | src/platform/SystemProxy.cpp:307-348 | performs exactly the planned atomic steps; succeeds if and only if already applied, or the file opened and every command succeeded; after a success every key, one by one, routes to host and port |
| `SystemProxyModel.SystemProxy.Revert` | src/platform/SystemProxy.cpp:350-371 | performs exactly the planned steps; nothing is applied afterwards |
| `SystemProxyModel.SystemProxy.Redirect` | src/platform/SystemProxy.cpp:182-202 | every write is attempted, in order, after a failure too; success only if all succeeded, and then every key, one by one, routes to host and port |
| `SystemProxyModel.RecoverFromPreviousRun` | src/platform/SystemProxy.cpp:373-394 | performs exactly the recovery steps of the file it finds; removes one that cannot be opened, and reports only a file it could read |
| `SystemProxyModel.RestoreGSettings` | src/platform/SystemProxy.cpp:204-230 | attempts exactly the restoring writes, the mode last and never empty, whichever fail; true if and only if all succeeded |
| `SystemProxyModel.RestoreKde` | src/platform/SystemProxy.cpp:281-305 | attempts exactly the restoring writes, the type last and never empty, whichever fail; true if and only if all succeeded |
| `Redirection.ApplyProxy` | src/platform/SystemProxy.cpp:307-348 | from a machine in hand to a machine in hand: told true exactly when everything succeeded, and then every key, one by one, routes to 127.0.0.1 and the port |
| `Redirection.RevertProxy` | src/platform/SystemProxy.cpp:350-371 | from a machine in hand, redirected or not, to one with nothing applied, safe at every step between |
| `Redirection.ApplyRedirects` | src/platform/SystemProxy.cpp:182-202 | an apply that succeeded leaves every key, one by one, routing to host and port |
| `Redirection.ApplyEvent` | src/platform/SystemProxy.cpp:307-348 | in the runs with kills, an apply left alone ends redirected, key by key, when all its commands succeed, and with the user's settings and no complete file otherwise |
| `Redirection.RevertEvent` | src/platform/SystemProxy.cpp:350-371 | in the runs with kills, a revert left alone ends with the user's settings, no file and nothing applied |
| `ProbePool.ProxyListModel.TestAllDelays` | src/models/proxylistmodel.cpp:711-743 | an accepted run queues each row that has an address and a port once, in row order, to be dialled there, and marks the others unreachable; refused while testing or when empty; only delays change |
| `ProbePool.ProxyListModel.Pump` | src/models/proxylistmodel.cpp:745-757 | from the weak invariant to the rest invariant: testing exactly while probes are live, a queue only when 32 are |
| `ProbePool.ProxyListModel.StartDelayTest` | src/models/proxylistmodel.cpp:759-800 | one more live probe, even when dialling fails at once and re-enters the pump |
| `ProbePool.ProxyListModel.Finish` | src/models/proxylistmodel.cpp:770-788 | the result is recorded, lands on its own row unless the list was reloaded, and its slot is refilled; fewer probes are left unfinished than before; ends at rest |
| `ProbePool.ProxyListModel.Deliver` | src/models/proxylistmodel.cpp:745-788 | every run ends: after as many completions as probes were waiting or in flight, in any order and with any reloads between, testing is over and every accepted run was reported exactly once |
| `ProbePool.ProxyListModel.ApplyDelay` | src/models/proxylistmodel.cpp:802-815 | a result of this generation lands on the row whose host and port were dialled; an older one changes nothing; every shown delay stays one measured on that row's endpoint |
| `ProbePool.ProxyListModel.StartRun` | src/models/proxylistmodel.cpp:734-743 | one run accepted, its end reported at once when nothing is to be dialled |
| `ProbePool.ProxyListModel.EveryNodeProbedOnce` | src/models/proxylistmodel.cpp:711-815 | after a finished run without a reload, every row that has an endpoint had exactly one probe, at that endpoint, and shows its result; every other row shows 9999; nothing else about a row changed |
| `ProbePool.ProxyListModel.PoolIsBounded` | src/models/proxylistmodel.cpp:745-757 | at rest never more than 32 probes are in flight, none waits while fewer are, and testing means that some are |
| `ProbePool.ProxyListModel.SetNodes` | src/models/proxylistmodel.cpp:678-697 | a new generation without queued probes; a selection still in the list is kept, any other becomes the first row's, or empty |
| `ProbePool.ProxyListModel.Reload` | src/models/proxylistmodel.cpp:664-676 | the active profile's nodes, or those of the written configuration when it has none |
| `ProxyNodes.PositionalIdsDistinct` | src/models/proxylistmodel.cpp:288-294 | different rows have different ids |
| `Decimal.PrintInjective` | src/models/proxylistmodel.cpp:288-294 | different numbers print differently |
| `ProxyNodes.ParseProxyNodes` | src/models/proxylistmodel.cpp:464-490 | the loop returns the specified nodes, ids numbered by position and delays unset |
| `ProxyNodes.ParseLines` | src/models/proxylistmodel.cpp:476-489 | one node for each line that parses, numbered without gaps, untested |
| `NodeReading.ReadsExactly` | src/models/proxylistmodel.cpp:316-396 | a line gives a node if and only if it says so: an ss link, in either case, the endpoint behind the last @ and the last colon of its server part, plain or base64, named by its fragment or numbered; any other scheme what its reader finds; anything else nothing |
| `NodeReading.LinesAreListed` | src/models/proxylistmodel.cpp:476-489 | each readable line gives one untested row, field by field, in order and numbered without gaps; every other line is blank or unreadable and leaves no row |
| `NodeReading.ContentIsRead` | src/models/proxylistmodel.cpp:464-490 | a plain body gives one row for each entry of a configuration, or the rows of its lines when it has a protocol link; an empty one gives none |
| `NodeReading.WrappedContentIsRead` | src/models/proxylistmodel.cpp:464-490 | the same bodies behind base64, in any accepted form, give the same rows |
| `Decimal.PortWraps` | src/models/proxylistmodel.cpp:347-347 | a port is read modulo 65536 |
| `Decimal.WordsAreZero` | src/models/proxylistmodel.cpp:347-347 | a port that is no number is 0 |
| `Profiles.EveryEditKeepsGood` | src/models/profilelistmodel.cpp:415-504 | over any sequence of activations, deletions, renamings and stores: ids distinct, URLs distinct, at most one active; and the saved list reloads as itself |
| `Profiles.ActivatedIsGood` | src/models/profilelistmodel.cpp:415-431 | afterwards the named profile is the active one, or none when the id is unknown |
| `Profiles.RemovedIsGood` | src/models/profilelistmodel.cpp:441-457 | deletion keeps the invariant; the active profile changes only if it was the deleted one |
| `Profiles.EditIsGood` | src/models/profilelistmodel.cpp:496-504 | editing a row in place keeps the invariant and which profile is active |
| `Profiles.AppendIsGood` | src/models/profilelistmodel.cpp:794-817 | a new profile keeps the invariant and becomes active exactly when none was |
| `Profiles.StoredIsGood` | src/models/profilelistmodel.cpp:761-817 | refresh in place or append keeps the invariant; the active id changes only if there was none |
| `Profiles.StoredExactly` | src/models/profilelistmodel.cpp:761-817 | a profile with this URL takes name, content and time, and the numbers if there are any, and keeps id, URL and activity; otherwise one profile is added, as given, with a new id made from the time, active exactly when no other is; no other profile changes |
| `Profiles.DeletedExactly` | src/models/profilelistmodel.cpp:441-457 | no profile of this id is left and all others stay, in order |
| `Profiles.FreeIdIsFirst` | src/models/profilelistmodel.cpp:794-797 | the id found is the first of the extensions that no profile has |
| `Profiles.FreeIdIsNear` | src/models/profilelistmodel.cpp:794-797 | the search for an unused id ends after at most one extension per profile |
| `Profiles.LongIdsShrink` | src/models/profilelistmodel.cpp:796-797 | each extension of a taken id leaves fewer ids it can still meet |
| `Profiles.SaveLoadRoundTrip` | src/models/profilelistmodel.cpp:834-902 | the saved document, loaded, is the list |
| `Profiles.JsonRoundTrip` | src/models/profilelistmodel.cpp:853-892 | every field of a profile survives the document |
| `Profiles.FieldsAreNamed` | src/models/profilelistmodel.cpp:880-892 | each field is stored under its name, with its value |
| `Profiles.OtherFiles` | src/models/profilelistmodel.cpp:836-849 | a bare list is read like one under profiles; a missing or broken file, or another document, gives no profile |
| `Profiles.BareEntries` | src/models/profilelistmodel.cpp:853-869 | an entry without an id is dropped; missing fields read as empty, inactive, 0, -1 days |
| `Profiles.NumbersAreRead` | src/models/profilelistmodel.cpp:864-867 | days that are not whole or out of range, and numbers that are text, read as their defaults; a time loses its fraction |
| `ProfileStore.ProfileListModel.SetActive` | src/models/profilelistmodel.cpp:415-431 | exactly the named profile is active, the file and the last active id follow, the bound node list agrees |
| `ProfileStore.ProfileListModel.DeleteProfile` | src/models/profilelistmodel.cpp:441-457 | no profile of that id is left, all others stay in order; file, last active id and node list follow |
| `ProfileStore.ProfileListModel.RenameProfile` | src/models/profilelistmodel.cpp:496-504 | the trimmed name replaces the old one unless it is blank; the node list still agrees |
| `ProfileStore.ProfileListModel.StoreProfile` | src/models/profilelistmodel.cpp:761-817 | refresh in place by URL or addition, field by field, no other profile changed; file and last active id follow, and the bound list shows the nodes of the active profile's new content |
| `ProfileStore.ProfileListModel.FindFreeId` | src/models/profilelistmodel.cpp:794-797 | the loop ends with the first unused extension |
| `ProfileStore.ProfileListModel.DownloadProfile` | src/models/profilelistmodel.cpp:594-618 | at most one download for a URL; the counter is the number in flight |
| `ProfileStore.ProfileListModel.HandleDownloadFinished` | src/models/profilelistmodel.cpp:620-678 | the counter drops by exactly one, so its clamp at zero never bites; a body is stored, field by field, under its URL; a failure changes no profile; the bound list shows the active profile's nodes |
| `ProfileStore.ProfileListModel.RefreshProfiles` | src/models/profilelistmodel.cpp:466-474 | a URL is in flight afterwards if and only if it was before, or some profile has it and it can be downloaded |
| `ProfileStore.ProfileListModel.SetLoadingDelta` | src/models/profilelistmodel.cpp:819-825 | adds the delta, clamped at zero |
| `ProfileStore.ProfileListModel.BindView` | src/models/proxylistmodel.cpp:526-533 | from binding on, a node list shows the active profile's nodes whenever that profile has any |
| `ProfileStore.ProfileListModel.ActiveProfileChanged` | src/models/proxylistmodel.cpp:664-697 | the signal brings the node list in agreement |
| `ProfileStore.ProfileListModel.ProbeFinished` | src/models/proxylistmodel.cpp:770-788 | probe results, delays ignored, keep the agreement |
| `Base64.TryBase64Decode` | src/models/proxylistmodel.cpp:49-69 | the loop computes the specified decoding, for either minimum length |
| `Base64.ImportInverts` | src/models/profilelistmodel.cpp:49-69 | for any NUL-free text in any accepted form (either alphabet, padded or not, white space anywhere) the import gives the text back, if and only if it does not start with a byte order mark |
| `Base64.PlainFormsAreEncodings` | src/models/profilelistmodel.cpp:49-69 | standard and URL-safe, each padded or not, are accepted forms; sections 4 and 5 of RFC 4648 |
| `Base64.SpacesAreIgnored` | src/models/profilelistmodel.cpp:51-53 | white space anywhere changes nothing |
| `Base64.ForeignCharacterRejected` | src/models/profilelistmodel.cpp:61-64 | any character outside the alphabets rejects the input |
| `Base64.AcceptsExactlyWellFormed` | src/models/profilelistmodel.cpp:61-64 | the strict codec accepts whole groups of four if and only if they are alphabet characters followed by at most two padding characters |
| `Base64.DecodeOfEncode` | src/models/profilelistmodel.cpp:61-64 | decoding inverts encoding |
| `Base64.NulIsRejected` | src/models/profilelistmodel.cpp:66-67 | what decodes to bytes with a NUL is no text |
| `Base64.ShortInputIsRejected` | src/models/profilelistmodel.cpp:54-55 | input with fewer characters than required, white space aside, is not tried |
| `Base64.TestVectors` | src/models/profilelistmodel.cpp:61-64 | groups of the vectors of section 10 of RFC 4648 |
| `Utf8.RoundTrip` | src/models/profilelistmodel.cpp:68-68 | text survives its bytes but for a leading byte order mark, which reading drops |
| `Subscription.DecodeTwice` | src/models/profilelistmodel.cpp:73-92 | decoding a decoded body only trims it, for all inputs |
| `Subscription.DecodeThrice` | src/models/profilelistmodel.cpp:680-758 | the import path's three decodings equal one, trimmed |
| `Subscription.KeptTextIsFinal` | src/models/proxylistmodel.cpp:72-90 | text unwrapped by either importer is never unwrapped again by either |
| `Subscription.WrappedBodyExactly` | src/models/profilelistmodel.cpp:73-92 | a base64 body is replaced by its text exactly when it is long enough for the importer (8 characters for profiles) and the text has one of that importer's markers |
| `Subscription.ReadableBodyIsTrimmed` | src/models/proxylistmodel.cpp:74-82 | empty bodies, configurations and bodies with a protocol link are only trimmed |
| `Subscription.OtherBodyIsTrimmed` | src/models/proxylistmodel.cpp:84-89 | bodies that are no base64, or hold nothing of interest, are only trimmed |
| `Subscription.ProtocolsAreKnown` | src/models/profilelistmodel.cpp:29-45 | each of the twelve protocol schemes makes a link, in any letter case |
| `Subscription.WrappedBodyIsUnwrapped` | src/models/profilelistmodel.cpp:73-92 | a base64 body around text with a link is unwrapped to that text |
| `ShadowsocksLinks.LegacyLinkIsParsed` | src/models/proxylistmodel.cpp:316-350 | the form with everything encoded gives exactly host, port and trimmed name |
| `ShadowsocksLinks.Sip002LinkIsParsed` | src/models/proxylistmodel.cpp:316-350 | the form with encoded credentials gives exactly host, port and trimmed name |
| `ShadowsocksLinks.BothFormsAgree` | src/models/proxylistmodel.cpp:329-348 | both forms of one server parse to the same fields |
| `ShadowsocksLinks.NameIsExact` | src/models/proxylistmodel.cpp:321-324 | the name comes back as it was if and only if it is trimmed, not empty and without a leading byte order mark |
| `ShadowsocksLinks.SubscriptionIsParsed` | src/models/proxylistmodel.cpp:464-490 | a list of such links, of either form, parses to one row for each, in order |
| `ShadowsocksLinks.WrappedSubscriptionIsParsed` | src/models/proxylistmodel.cpp:464-490 | the same list wrapped in base64 parses to the same rows |
| `DeepLink.ParseQueryParams` | src/models/profilelistmodel.cpp:237-255 | the loop collects the specified parameters, a later value replacing an earlier one |
| `DeepLink.DeepLinkRoundTrip` | src/models/profilelistmodel.cpp:507-549 | every path form, both orders: URL and name come back, a leading byte order mark of either dropped; section 2.1 of RFC 3986 |
| `DeepLink.DeepLinkExact` | src/models/profilelistmodel.cpp:507-549 | they come back unchanged if and only if neither starts with a byte order mark |
| `DeepLink.LinkWithoutUrl` | src/models/profilelistmodel.cpp:536-544 | a client link without a URL is malformed, not ignored |
| `DeepLink.EveryLinkIsRead` | src/models/profilelistmodel.cpp:526-549 | any link of a client scheme, with or without import segment, path and question mark: malformed without a url parameter, otherwise the last url and the last name, empty when there is none |
| `DeepLink.LastPairWins` | src/models/profilelistmodel.cpp:237-255 | a parameter has the decoded value of the last part that names it; parts without a key or without an equals sign count for nothing |
| `DeepLink.LinkWithoutName` | src/models/profilelistmodel.cpp:536-548 | a link with a URL and no name gives the URL and an empty name |
| `DeepLink.SchemeExactly` | src/models/profilelistmodel.cpp:526-529 | the scheme pattern matches a letter, then letters, digits, plus, dot or minus, then :// |
| `DeepLink.SchemelessIsIgnored` | src/models/profilelistmodel.cpp:526-529 | text that does not start so is no deep link |
| `DeepLink.ConfigsAreNotDeepLinks` | src/models/profilelistmodel.cpp:513-529 | protocol links, http(s) URLs and plain text are never deep links |
| `Percent.RoundTrip` | src/models/profilelistmodel.cpp:249-250 | percent-decoding inverts percent-encoding but for a leading byte order mark |
| `Percent.PlainIsKept` | src/models/profilelistmodel.cpp:249-250 | text without a percent sign stands for itself; a plus sign is no space |
| `Percent.EscapesAreRead` | src/models/profilelistmodel.cpp:249-250 | hexadecimal digits of an escape may have either case; what is no escape stands for itself |
| `Text.SplitOfJoin` | src/models/proxylistmodel.cpp:478-478 | splitting inverts joining |
| `Text.TrimShape` | src/models/profilelistmodel.cpp:74-74 | the result has no white space at either end, keeps every character that is not white space and adds none |
| `Text.TrimCuts` | src/models/profilelistmodel.cpp:74-74 | trimming cuts white space off both ends and leaves the middle as it is |
| `LogTail.Watch` | src/models/logsmodel.cpp:55-127 | the viewer over any run of polls, one for each appended piece: in range if and only if no poll meets more than 500 fresh rows, and then the list is the last 500 rows of the text and the kept line is its unfinished rest |
| `LogTail.TailingEqualsBatch` | src/models/logsmodel.cpp:55-103 | for any append-only growth in any number of polls, cut between characters and at most 256 KiB apart, all rows taken in, the unfinished line and the position are those of one read of the decoded text |
| `LogTail.EntriesExactly` | src/models/logsmodel.cpp:109-113 | every line that is not blank gives one row, trimmed, in order; no other row exists |
| `LogTail.RowsOfLines` | src/models/logsmodel.cpp:95-102 | the rows of a text are those of its complete lines; what follows the last line break is kept back |
| `LogTail.RotatedFileIsRead` | src/models/logsmodel.cpp:71-77 | a file that shrank is read as by a new viewer, whatever was shown before |
| `LogTail.AppendedBytesAreRead` | src/models/logsmodel.cpp:78-103 | appended bytes are read behind the unfinished line; without any, nothing changes |
| `LogTail.LongAppendsAreSkipped` | src/models/logsmodel.cpp:84-93 | of more than 256 KiB only the last 256 KiB are read, and the unfinished line is forgotten |
| `LogTail.NoFileNoRows` | src/models/logsmodel.cpp:60-82 | without a file nothing is shown; one that cannot be opened changes nothing unless it shrank |
| `LogTail.DecodedIsWritten` | src/models/logsmodel.cpp:95-102 | the text taken in is the text written, but for byte order marks that begin a piece |
| `LogTail.RowsOfConcat` | src/models/logsmodel.cpp:95-102 | reading a further piece after a text is reading both at once |
| `LogTail.FirstPollOverruns` | src/models/logsmodel.cpp:117-122 | a first poll of n short lines removes more rows than the list has if and only if n exceeds 500 |
| `LogTail.LogsModel.Poll` | src/models/logsmodel.cpp:55-103 | from any state and file: in range if and only if at most 500 rows are new, and then the specified progress |
| `LogTail.LogsModel.AppendLines` | src/models/logsmodel.cpp:105-127 | the list is the last 500 of all rows taken in |
| `LogTail.LogsModel.ClearLogs` | src/models/logsmodel.cpp:195-200 | empties the list and keeps position and unfinished line |
| `Text.RightOfConcat` | src/core/CoreProcess.cpp:241-243 | keeping the end of what was kept is keeping the end of all |
| `Text.RightIsTheEnd` | src/core/CoreProcess.cpp:241-243 | what is kept is the end of the text, of the given length or all of it |

## Left out

- QML, icons, packaging, the settings model and its JSON, traffic statistics, the IP lookup and the control API: display and thin
  wrappers. Status texts are kept only as far as they are failures; the status log and `emit statusMessage` are not modelled.
- `connectVpn` and its download state: no caller reaches them; the model proves that the downloading state never occurs.
- The engine's search path, its arguments and the port it announces: the port is parsed per chunk, so nothing independent of chunking holds.
- Bytes on the wire, sockets, timers and the process class: events and parameters, under the assumptions above.
- Usability of a configuration, the host of a URL, JSON syntax, VMess and the generic link parsers, and the engine's JSON: these
  rest on Qt's JSON and URL classes and enter as parameters (`Library`, `Config`, `isReserved`).
- Destructors: only the revert at exit is modelled.
- Country codes, protocol names, filters, sort orders, row signals, traffic and expiry headers, names derived from headers or file names.
- Malformed UTF-8 and malformed percent escapes: text is a sequence of Unicode scalar values, decoded leniently but without Qt's exact
  replacement rules; lengths count scalar values where Qt counts UTF-16 units.
- Fields of a log line: a row is its trimmed text. Cuts inside a UTF-8 sequence and rotation that regrows past the old size between
  two polls are outside the tailing theorem.
- Numbers in the profiles file are exact; the timestamps and traffic figures of the original are doubles, exact below 2^53.
- Two instances of the client, and power cuts outside `Faults.PowerCutExact`.
- ProfileStore.ProfileListModel.HandleDownloadFinished: does not model how the name and the traffic figures are chosen from headers,
  address and body; they enter with the reply, as they rest on tables and Qt's URL class.
- A kill of the client between two events is not an event of the session model; it is covered for the desktop by
  `Client.EveryMomentIsRecoverable` and `CrashSafety`, and an engine that outlives the client is not modelled.
- ClientRuns.Client.EverySessionIsSafe: speaks of one client from launch to exit; sequences of launches are the runs of `CrashSafety`.
- ProfileStore.ProfileListModel.constructor: does not model a stored list with repeated ids or several active profiles, which the original loads as it is.
- Wall-clock limits: a run settles by counting replies and ticks, not seconds.
