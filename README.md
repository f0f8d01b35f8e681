# CodeChain dashboard: agent supervision, daily report, chain-network reducer

This project is a Dafny model of the stateful and transformational core of the
CodeChain dashboard. It covers five parts:

- **The per-node agent of the server** (`Agent`, `AgentAlerts`).
  - Its session state machine (`Initializing`, `Normal`, `Stop`).
  - The `update` transition it performs on every poll.
  - The polling loop `run`, with three edge-triggered alert detectors: low peer count, stalled best block and low disk space.
  - The idempotent `clean_up`, and `run_thread`, which runs, cleans up and drops the agent.
- **The daily report** (`DailyReporter`). This is the list of message lines built from the agents' states, including the disk aggregation and the memory arithmetic in MB. It also covers the date-change trigger that decides when a report is sent.
- **The shared RPC types** (`CommonRpcTypes`): the `NodeStatus` default, and the `GraphPeriod` serialiser and deserialiser.
- **The front end's chain-network reducer** (`ChainNetworks`). It merges nodes by name, appends new nodes, then adds and removes connections.
- **The client's disk-usage accumulation** (`PrintDiskUsage`): running totals over the disks.

Every remote call, the database and the agent service are modelled as inputs.
- One `PollResponses` value holds the answers to all the calls that one `update` makes, in call order. This includes the database's answer to the registration.
- `Agent.Agent.Run` takes a sequence of them, one per poll.
- Every request the agent makes is appended to a log field of the `Agent` class: requests to the database, messages to the agent service, warnings to the notifier, and websocket closes. The one exception is the `get_agent_extra` lookup, listed under "## Left out".

The alert detectors are specified twice.
- **As a pure step function.** `AgentAlerts.Observe` takes one step; `AgentAlerts.Detect` and `AgentAlerts.Alerts` fold it over the observations of the successful polls. The lemmas about counters and warnings are stated on this function.
- **As methods.** `Agent.Agent.Watch` and its three section methods keep the source's own loop variables. They are proved to follow the step function.

`Prelude` holds what several modules share:
- `Option` and `Result`;
- the 64-bit integer types, and Rust's truncating division and `as` casts;
- decimal rendering;
- `Join`.

`Noti` holds the notification values.

Three behaviours of the code are easy to misread:
- **Block-stall counter.** The high-water mark starts at 0, so the first best block reported is always an increase. Best blocks 100, 100, 100, 105 give stale counts 0, 1, 2, 0 and no warning (`AgentAlerts.StallCountFromFreshStart`).
- **Disk warning re-arm.** The warning re-arms only when free space is strictly above 1 000 000 000 bytes. Exactly 1 000 000 000 neither warns nor re-arms (`AgentAlerts.DiskStep`).
- **`run` has no normal end.** In the code, `run` returns only on the duplicate-name stop or on an error. The model returns `Polling` when the given responses run out.

## Model

| member | source | states |
|---|---|---|
| Prelude.DivTrunc | server/src/daily_reporter.rs:101-102 | Rust's integer `/` truncates toward zero: the remainder has the dividend's sign and is smaller than the divisor in magnitude |
| Prelude.AsU64 | server/src/agent/agent.rs:344 | `as u64` on an `i64` keeps the value modulo 2^64 and leaves non-negative values unchanged |
| Prelude.AsI64 | client/src/bin/print_disk_usage.rs:58-59 | `as i64` on a `u64` keeps the value modulo 2^64, leaves values up to `i64::MAX` unchanged and makes larger ones negative |
| Prelude.IntToString | server/src/daily_reporter.rs:83 | the `{}` rendering of an integer is non-empty and starts with `-` exactly for negative numbers |
| Prelude.ParseNatToString | server/src/daily_reporter.rs:83 | the decimal digits of a natural number read back to that number |
| Prelude.IntToStringInjective | server/src/daily_reporter.rs:95 | distinct integers are rendered as distinct strings |
| Prelude.Join | server/src/daily_reporter.rs:126 | joining no parts gives the empty string; joining one part gives that part |
| Prelude.JoinSnoc | server/src/daily_reporter.rs:126 | joining one more part puts the separator between the parts joined so far and the new part. With `Join`'s own cases, this fixes the joined text for any number of parts |
| Prelude.NatToString | server/src/daily_reporter.rs:83 | the rendering of a natural number is a non-empty run of decimal digits with no leading zero |
| CommonRpcTypes.DefaultNodeStatus | server/src/common_rpc_types.rs:21-25 | the default node status is `Stop` |
| CommonRpcTypes.DebugStatus | server/src/common_rpc_types.rs:11-19 | the derived `Debug` of a status is its variant name, never empty; the report lines use it |
| CommonRpcTypes.SerializePeriod | server/src/common_rpc_types.rs:118-128 | every period serialises to one of the three strings the deserialiser accepts |
| CommonRpcTypes.DeserializePeriod | server/src/common_rpc_types.rs:130-142 | it is defined exactly on "minutes5", "hour" and "day" (other strings panic); serialising its result gives the input back |
| CommonRpcTypes.PeriodRoundTrip | server/src/common_rpc_types.rs:122-140 | deserialising the serialisation of any period gives that period |
| CommonRpcTypes.SerializePeriodInjective | server/src/common_rpc_types.rs:122-126 | distinct periods serialise to distinct strings |
| CommonRpcTypes.PeriodStringsAreSerializations | server/src/common_rpc_types.rs:135-140 | a string is accepted by the deserialiser if and only if some period serialises to it |
| Agent.State.Name | server/src/agent/agent.rs:51-63 | the name is absent exactly for `Initializing`, and is the carried name for `Normal` and `Stop` |
| Agent.MonitoringError | server/src/agent/agent.rs:296-319 | the transcription of the `?` chain from `get_peers` to `hardware_get`: the first failing call in source order, with the hardware error prefixed "Agent Update "; `UpdateFromMonitoredState` states it |
| Agent.PollError | server/src/agent/agent.rs:256-339 | the transcription of every early return of a monitoring `update`: `agent_getInfo`, then the RPC chain, then `get_logs`; `UpdateFromMonitoredState` and `Agent.Agent.MonitorPoll` state it |
| Agent.InitialSnapshot | server/src/agent/agent.rs:269-279 | the transcription of the row offered at registration: the node's name, status and address, and an empty version with the agent's commit hash; `UpdateFromInitializing` states it |
| Agent.MonitoringSnapshot | server/src/agent/agent.rs:324-335 | the transcription of the full row written on a monitoring poll; `UpdateFromMonitoredState` states it |
| Agent.UpdateResultOf | server/src/agent/agent.rs:341-346 | the transcription of the value a monitoring `update` returns: the network id or "", the peer count, the block number cast to `u64`, the disk usage; `UpdateFromMonitoredState` and `BlockNumberConversion` state it |
| Agent.UpdateSpec | server/src/agent/agent.rs:256-347 | the transcription of `Agent::update` as a transition on the state; the lemmas `UpdateInfoFailureKeepsState` and `UpdateStopsOnlyOnRejection` below, and the method `Agent.Agent.Update`, are about it |
| Agent.ReportedVersion | server/src/agent/agent.rs:298-314 | the stored version always carries the agent's binary checksum. When the node reports both a version and a commit hash, they are used. Otherwise the version is empty and the hash is the agent's own commit hash |
| Agent.UpdateInfoFailureKeepsState | server/src/agent/agent.rs:257 | a failed `agent_getInfo` returns that error, leaves the state untouched and writes nothing |
| Agent.UpdateFromInitializing | server/src/agent/agent.rs:266-294 | from `Initializing`, the update offers the initial row. Acceptance gives `Normal` with the info's name, address and status; rejection gives `Stop` with cause `AlreadyConnected`. Both return `Ok(None)`; a timeout returns "DB timeout" and keeps `Initializing` |
| Agent.UpdateFromMonitoredState | server/src/agent/agent.rs:296-346 | once registered, the update fails exactly when one of its calls fails, with that call's message. On success the state is `Normal` with the fresh info, the peer count is the length of the peer list, the best block number is the best block's number (or none), and the snapshot and the logs are written in that order |
| Agent.UpdateLogFailureKeepsFreshState | server/src/agent/agent.rs:324-339 | a failing log fetch still leaves the new state and the written snapshot behind |
| Agent.UpdateNeverReinitializes | server/src/agent/agent.rs:256-347 | no update leads into `Initializing` from another state, and staying there is always a failure |
| Agent.UpdateStopsOnlyOnRejection | server/src/agent/agent.rs:266-294 | a successful update leaves the session stopped exactly when it was the registration and the database rejected the name |
| Agent.UpdateRun | server/src/agent/agent.rs:187-253 | the transcription of calling `update` once per poll from a given state, collecting the database requests; `UpdateRunSnoc`, `UpdateRunStep` and `MonitoredAfterFirst` relate its prefixes, and `Agent.Agent.Monitor`, `Run` and `RunThread` are proved against it |
| Agent.Registers | server/src/agent/agent.rs:155-165 | the transcription of the run getting past registration: the first update succeeds without a stop and `AddAgent` is sent; `Agent.Agent.Run` and `RunThread` state the service log by it |
| Agent.RunFailure | server/src/agent/agent.rs:155-193 | the transcription of why a run fails: its registering update, the `AddAgent` send, or the first failing monitoring poll; `Agent.Agent.Run` and `RunThread` state the error by it |
| Agent.UpdateRunSnoc | server/src/agent/agent.rs:187-253 | a run of updates over one more poll is one more `update` from the state the run left, with that update's database requests appended |
| Agent.MonitoredAfterFirst | server/src/agent/agent.rs:155-199 | running the updates over a prefix of the polls is the registering update followed by the run over the rest of that prefix |
| Agent.UpdateRunStep | server/src/agent/agent.rs:187-253 | the run of updates over the first `i + 1` polls is the run over the first `i` followed by one more `update` from the state it left |
| Agent.BlockNumberConversion | server/src/agent/agent.rs:344 | the best block number is the block number as `u64`: equal when non-negative, shifted by 2^64 when negative |
| Agent.CloseCodeFor | server/src/agent/agent.rs:355-369 | the close code is `Normal` if and only if the reason is `Success` |
| Agent.CloseReason | server/src/agent/agent.rs:355-369 | an `Error` reason passes its message through; the reason text is empty only for `Success` or an empty error message |
| Agent.FinalSnapshot | server/src/agent/agent.rs:376-389 | cleanup writes at most one row, and writes one exactly when the state is `Normal`: that node's name and address with status `Error` |
| Agent.CleanupReasonOf | server/src/agent/agent.rs:138-146 | a stop is cleaned up as `AlreadyConnected` and a failure as `Error` with its message; never as `Success` |
| Agent.Agent.constructor | server/src/agent/agent.rs:105-124 | a new agent starts `Initializing`, not closed, with every log empty |
| Agent.Agent.Update | server/src/agent/agent.rs:256-347 | the result, the new state and the database requests are those of the transition `UpdateSpec`, whose branches the lemmas above describe |
| Agent.Agent.Run | server/src/agent/agent.rs:152-254 | it stops exactly when the first update is a rejected registration, and a stop leaves the state `Stop`. A failure is explained by `RunFailure`. `AddAgent` is sent exactly when registration succeeds. The detectors see the successful monitoring polls in order, and the warnings sent are those of the alert fold over them. The state and the database rows are those of `update` run over every poll that was processed: one for a stop or a registration failure, all of them while polling, up to and including the failing one otherwise. After registration the state is `Normal` |
| Agent.Agent.Monitor | server/src/agent/agent.rs:187-253 | the loop stops at the first failing update with that update's error. Before that, every poll's observation is fed to the detectors, and the warnings sent are those of the alert fold. The state and the database rows are those of `update` run over the polls processed, including the failing one |
| Agent.Agent.MonitorPoll | server/src/agent/agent.rs:192-252 | one pass of the loop: the state and database rows are those of one `update`. The pass fails exactly when a call of the poll fails, with that call's message, and then leaves the detectors and the warnings as they were. Otherwise the detectors take one step on the poll's observation and that step's warnings are sent |
| Agent.Agent.Watch | server/src/agent/agent.rs:214-250 | one pass of the three detectors over the loop variables equals one step of the alert step function, with its warnings sent in order |
| Agent.Agent.WatchConnectivity | server/src/agent/agent.rs:214-224 | the low-peer counter counts polls with fewer than 5 peers and resets otherwise; it warns when the counter equals 6 |
| Agent.Agent.WatchStall | server/src/agent/agent.rs:226-237 | a strictly higher best block resets the stale counter and raises the mark; otherwise the counter grows; it warns at 3; a poll with no best block changes nothing |
| Agent.Agent.WatchDisk | server/src/agent/agent.rs:239-250 | with the flag clear, less than 1 GB free warns (with the free space in whole MB) and sets the flag; with the flag set, more than 1 GB free clears it |
| Agent.Agent.CleanUp | server/src/agent/agent.rs:349-403 | the first call sends `RemoveAgent`, writes the final snapshot and closes the websocket with the chosen code and reason; every later call changes nothing |
| Agent.Agent.Finish | server/src/agent/agent.rs:138-146 | after `run` returns, the agent is closed with exactly one `RemoveAgent` and one websocket close, with code `Error` and the reason for how it ended. The cleanup done when the agent is dropped (lines 413-417) adds nothing |
| Agent.Agent.RunThread | server/src/agent/agent.rs:138-146 | a stopped run closes with the duplicate-name reason and leaves the agent in `Stop`; a failed run closes with its error. The agent service sees `AddAgent` only if registration succeeded, then `RemoveAgent` once the run has ended; a run still polling has sent no `RemoveAgent`. The warnings sent are exactly those of `AlertNotifications(Alerts(observed))`, where `observed` are the observations of the monitoring polls that succeeded, and the failure and the number of updates run follow `Run`. The database receives the rows of every update run, then the final snapshot. A run that failed after registration ends with a row of status `Error` |
| AgentAlerts.DetectSnoc | server/src/agent/agent.rs:187-253 | one more successful poll advances the detectors by one step and appends that step's warnings |
| AgentAlerts.ObserveConnectivity | server/src/agent/agent.rs:214-224 | the transcription of the connectivity section: the low-peer counter and the warning at exactly 6; `LowPeerPollsCountTrailingRun`, `LowPeerAlertOnSixthPoll` and `LowPeerAlertOncePerRun` are about it |
| AgentAlerts.ObserveStall | server/src/agent/agent.rs:226-237 | the transcription of the stall section: the high-water mark, the stale counter, the warning at exactly 3, nothing without a block; `StallStep` and the stall lemmas below are about it |
| AgentAlerts.ObserveDisk | server/src/agent/agent.rs:239-250 | the transcription of the disk section: the latch and the warning under 1 GB free; `DiskStep` and the disk lemmas below are about it |
| AgentAlerts.Observe | server/src/agent/agent.rs:214-250 | the transcription of one pass of the detectors, warnings in source order; `Agent.Agent.Watch` is proved against it |
| AgentAlerts.Detect | server/src/agent/agent.rs:187-253 | the transcription of the loop variables after a run of successful polls, starting from 0, 0, 0 and false; `DetectSnoc`, `StepAt` and the counter lemmas are about it |
| AgentAlerts.Alerts | server/src/agent/agent.rs:187-253 | the transcription of every warning the loop sends over a run of successful polls, in order; the once-per-run lemmas are about it |
| AgentAlerts.StepAt | server/src/agent/agent.rs:187-253 | the detector state after poll `i` is one step from the state before it |
| AgentAlerts.LowPeerPollsCountTrailingRun | server/src/agent/agent.rs:214-218 | the low-peer counter is exactly the length of the trailing run of polls with fewer than 5 peers |
| AgentAlerts.LowPeerAlertOnSixthPoll | server/src/agent/agent.rs:214-224 | a low-peer warning is sent on a poll if and only if it is the sixth consecutive low-peer poll |
| AgentAlerts.LowPeerAlertOncePerRun | server/src/agent/agent.rs:214-224 | between two low-peer warnings there is a poll with at least 5 peers |
| AgentAlerts.SixthLowPeerPollsApart | server/src/agent/agent.rs:214-224 | between the sixth polls of two low-peer runs lies the poll with enough peers that opened the later run |
| AgentAlerts.StallStep | server/src/agent/agent.rs:226-237 | one stall step: no best block changes nothing; a strict increase resets the counter and moves the mark; otherwise the counter grows; the warning fires if and only if the counter becomes 3 |
| AgentAlerts.BlockMarkIsHighWater | server/src/agent/agent.rs:226-231 | the mark is at least every best block seen, and is 0 or one of them |
| AgentAlerts.BlockMarkNeverDecreases | server/src/agent/agent.rs:226-231 | the mark never decreases from poll to poll |
| AgentAlerts.StaleGrowsWithoutIncrease | server/src/agent/agent.rs:226-233 | the stale counter never decreases over polls that bring no increase |
| AgentAlerts.NoBlockUpdateOncePerStall | server/src/agent/agent.rs:226-237 | between two stall warnings there is a poll that raises the mark |
| AgentAlerts.StallCountFromFreshStart | server/src/agent/agent.rs:188-237 | best blocks 100, 100, 100, 105 from the start give stale counts 0, 1, 2, 0 and no warning |
| AgentAlerts.DiskStep | server/src/agent/agent.rs:239-250 | the disk warning fires if and only if the flag is clear and less than 1 GB is free; a clear flag becomes set exactly then; a set flag clears exactly when more than 1 GB is free |
| AgentAlerts.DiskFlagStaysSet | server/src/agent/agent.rs:239-250 | once set, the flag stays set while free space stays at or below 1 GB |
| AgentAlerts.LowDiskAlertOncePerCrossing | server/src/agent/agent.rs:239-250 | between two disk warnings there is a poll with more than 1 GB free |
| AgentAlerts.AlertNotificationNamesNode | server/src/agent/agent.rs:220-244 | every alert is a warning for its network whose message starts with the node name |
| AgentAlerts.AlertNotification | server/src/agent/agent.rs:219-247 | the transcription of the three warning format strings, each sent as `noti.warn` on the node's network; `AlertNotificationNamesNode` states it |
| AgentAlerts.AlertNotifications | server/src/agent/agent.rs:187-253 | the transcription of the warnings sent for a sequence of alerts, one each; `AlertNotificationsAppend` and `AlertNotificationsPointwise` are about it |
| AgentAlerts.AlertNotificationsAppend | server/src/agent/agent.rs:187-253 | the warnings for two runs of alerts are the warnings of the first followed by those of the second |
| AgentAlerts.AlertNotificationsPointwise | server/src/agent/agent.rs:187-253 | one warning is sent per alert, in the same order |
| DailyReporter.DbStatusLine | server/src/daily_reporter.rs:49-54 | the status line is "DB is connected" if and only if the connection check succeeded |
| DailyReporter.Availables | server/src/daily_reporter.rs:75 | the per-disk list is each disk's free space in bytes, in order |
| DailyReporter.DiskUsageOf | server/src/daily_reporter.rs:72-82 | the per-disk list wins and gives the sum of per-disk whole MB with the raw list; otherwise the single figure gives its whole MB and a one-element list; Unknown exactly when both are absent |
| DailyReporter.MbTotal | server/src/daily_reporter.rs:74 | the transcription of the sum of free space per disk, each first truncated to whole MB; `MbTotalRounding`, `MbTotalTwo` and `PerDiskTruncation` are about it |
| DailyReporter.DiskLine | server/src/daily_reporter.rs:85-98 | the transcription of the three renderings of the disk line; `EmptyDiskListLine`, `SingleDiskLine` and `TwoDiskLine` are about it |
| DailyReporter.MemoryLine | server/src/daily_reporter.rs:100-104 | the transcription of the memory line, used and total in truncated MB, the same for Stop (:117-121); `MemoryUsedWithinTotal` is about it |
| DailyReporter.IdentityLines | server/src/daily_reporter.rs:68-70 | the transcription of the name, address and status lines, the same for Normal (:68-70) and Stop (:113-115); `KnownAgentIdentityFirst` states it |
| DailyReporter.UpdateLines | server/src/daily_reporter.rs:71-99 | the transcription of the peer, block and disk lines of a recent update; `NormalAgentLines` states it |
| DailyReporter.AgentLines | server/src/daily_reporter.rs:59-123 | the transcription of the lines one agent state contributes; `AgentLinesHeader`, `InitializingAgentsSkipped`, `StoppedAgentLines` and `NormalAgentLines` are about it |
| DailyReporter.AllAgentLines | server/src/daily_reporter.rs:58-124 | the transcription of the loop over the agent states, lines in order; `AllAgentLinesCountKnownAgents` is about it |
| DailyReporter.ReportLines | server/src/daily_reporter.rs:54-124 | the transcription of the message lines: the running line, the database line, then every agent's lines; `ReportCountsKnownAgents` are about it, and `SendDailyReport` joins them |
| DailyReporter.SendDailyReport | server/src/daily_reporter.rs:43-127 | the messages are the running line, the database status line, then each agent's lines in order; one info notification titled "Daily report" carries them joined by newlines |
| DailyReporter.ReportAgent | server/src/daily_reporter.rs:59-123 | the loop body appends exactly the agent's lines to the messages so far |
| DailyReporter.WatchDates | server/src/daily_reporter.rs:21-30 | a report is sent on a check exactly when its date differs from the date seen at the check before; the current date is then the last date seen |
| DailyReporter.OneReportPerDay | server/src/daily_reporter.rs:23-30 | with dates that do not go back, two reports are always sent on different, increasing dates |
| DailyReporter.EveryNewDayReported | server/src/daily_reporter.rs:23-30 | every date seen that differs from the start date has a first check among those up to where it was seen, and the first check on that date sends a report |
| DailyReporter.AgentLinesHeader | server/src/daily_reporter.rs:59-70 | an agent contributes no lines exactly when it is `Initializing`; otherwise its first line is "Agent: " and its name, and its block holds exactly one such header |
| DailyReporter.AgentDetailLinesIndented | server/src/daily_reporter.rs:69-121 | every line of a known agent's block after its header is indented by two spaces |
| DailyReporter.SentReportCountsKnownAgents | server/src/daily_reporter.rs:49-124 | the report that is sent, whatever the database status, holds one agent header per agent that is not `Initializing` |
| DailyReporter.ReportCountsKnownAgents | server/src/daily_reporter.rs:54-124 | the report holds one agent header per agent that is not `Initializing` |
| DailyReporter.AllAgentLinesCountKnownAgents | server/src/daily_reporter.rs:58-124 | the agents' lines hold one header per known agent |
| DailyReporter.InitializingAgentsSkipped | server/src/daily_reporter.rs:60 | an `Initializing` agent adds no line to the report |
| DailyReporter.KnownAgentIdentityFirst | server/src/daily_reporter.rs:68-70 | a `Normal` or `Stop` agent's block opens with its name, address and status lines, in that order (also lines 113-115) |
| DailyReporter.StoppedAgentLines | server/src/daily_reporter.rs:106-122 | a stopped agent's block is its three identity lines followed by its memory line when one is known |
| DailyReporter.StoppedAgentReportsNoChainData | server/src/daily_reporter.rs:106-122 | no line of a stopped agent's block is a peer-count, best-block or disk line |
| DailyReporter.NormalAgentLines | server/src/daily_reporter.rs:61-105 | a running agent with an update result has six lines before its memory line: the peer count fourth and the disk line sixth |
| DailyReporter.MbTotalRounding | server/src/daily_reporter.rs:74 | with non-negative free space, the per-disk truncation to MB loses less than one MB per disk against the exact total |
| DailyReporter.PerDiskTruncation | server/src/daily_reporter.rs:74 | two disks of 1.5 MB free each total 2 MB, where the truncated sum would be 3 MB |
| DailyReporter.EmptyDiskListLine | server/src/daily_reporter.rs:73-96 | an empty per-disk list still wins and prints "  available disk: 0() MB" |
| DailyReporter.SingleDiskLine | server/src/daily_reporter.rs:77-90 | a single figure is printed as whole MB with no per-disk list |
| DailyReporter.TwoDiskLine | server/src/daily_reporter.rs:73-96 | with two disks, the total is in whole MB while the parenthesised list gives each disk's free bytes |
| DailyReporter.MbTotalTwo | server/src/daily_reporter.rs:74 | the MB total of two disks is the sum of each disk's free space truncated to whole MB |
| DailyReporter.MemoryUsedWithinTotal | server/src/daily_reporter.rs:100-103 | when free memory is within the total, the used MB shown is between 0 and the total MB shown |
| ChainNetworks.InitialState | src/reducers/chainNetworks.ts:15-17 | the initial state holds no chain networks |
| ChainNetworks.FindByName | src/reducers/chainNetworks.ts:46-49 | the lookup finds nothing exactly when no node has the name, and otherwise finds the first node with it |
| ChainNetworks.DifferenceByName | src/reducers/chainNetworks.ts:39-43 | the new nodes are exactly the action nodes whose names are not among the old nodes' names |
| ChainNetworks.DifferenceWith | src/reducers/chainNetworks.ts:65-69 | the kept connections are exactly those not equal to any removed connection |
| ChainNetworks.UpdatedNodes | src/reducers/chainNetworks.ts:45-55 | the transcription of the `_.map` over the known nodes, each merged with its first match by name; `UpdatedNodesLayout` and `UpdatedNodesNames` are about it |
| ChainNetworks.AddConnections | src/reducers/chainNetworks.ts:57-60 | the transcription of the added-connections step: append a present, non-empty list, otherwise keep the connections; `ConnectionsAppendInOrder` and `EmptyEditListsAreAbsent` are about it |
| ChainNetworks.RemoveConnections | src/reducers/chainNetworks.ts:62-70 | the transcription of the removed-connections step: `differenceWith` a present, non-empty list, otherwise keep; `UpdatedConnectionsOrder` and `EmptyEditListsAreAbsent` are about it |
| ChainNetworks.ApplyUpdate | src/reducers/chainNetworks.ts:39-77 | the transcription of the `UpdateChainNetworks` case once networks exist; `UpdatedNodesLayout`, `UpdatedNames` and the connection lemmas are about it |
| ChainNetworks.Reduce | src/reducers/chainNetworks.ts:19-81 | the transcription of `chainNetworksReducer`; `SetChainNetworksReplaces`, `UpdateWithoutNetworksKeepsState` and `OtherActionKeepsState` are about it |
| ChainNetworks.SetChainNetworksReplaces | src/reducers/chainNetworks.ts:24-30 | `SetChainNetworks` replaces the networks with the action's data |
| ChainNetworks.UpdateWithoutNetworksKeepsState | src/reducers/chainNetworks.ts:32-37 | `UpdateChainNetworks` with no networks returns the state unchanged |
| ChainNetworks.OtherActionKeepsState | src/reducers/chainNetworks.ts:80 | any other action returns the state, or the initial state when none is given |
| ChainNetworks.UpdatedNodesLayout | src/reducers/chainNetworks.ts:39-55 | the old nodes come first, in order, each merged with the first same-named action node or unchanged; the new nodes follow; the length adds up (result on line 74) |
| ChainNetworks.NewNodesAreFresh | src/reducers/chainNetworks.ts:39-43 | no appended node has the name of an old node |
| ChainNetworks.UpdatedNames | src/reducers/chainNetworks.ts:39-55 | with a merge that keeps the name of two same-named nodes, the resulting names are the old names together with the action's names |
| ChainNetworks.NamesAppend | src/reducers/chainNetworks.ts:74 | the names of the concatenated node list are the names of its two parts |
| ChainNetworks.UpdatedNodesNames | src/reducers/chainNetworks.ts:45-55 | under a merge that keeps names, the merged known nodes carry exactly the known names |
| ChainNetworks.AppendedNames | src/reducers/chainNetworks.ts:39-43 | the appended nodes carry only action names, and every action name that was not known |
| ChainNetworks.UpdatedNodeKeepsName | src/reducers/chainNetworks.ts:45-55 | under such a merge, every known node keeps its name through the update |
| ChainNetworks.OverwritingMergeKeepsName | src/reducers/chainNetworks.ts:51 | a merge that takes the action node's fields, as the overwriting deep merge does, meets that requirement |
| ChainNetworks.UpdatedConnections | src/reducers/chainNetworks.ts:57-70 | a connection is in the result if and only if it was old or added (when the added list is non-empty), and is not removed (when the removed list is non-empty) |
| ChainNetworks.UpdatedConnectionsCount | src/reducers/chainNetworks.ts:57-70 | a connection occurs in the result as often as in the old and added lists together, or not at all when it is removed, so repeats are kept |
| ChainNetworks.UpdatedConnectionsOrder | src/reducers/chainNetworks.ts:57-70 | with removals, the surviving old connections keep their order and are followed by the surviving added ones in their order |
| ChainNetworks.DifferenceWithAppend | src/reducers/chainNetworks.ts:65-69 | removal distributes over concatenation, so the kept elements stay in their order |
| ChainNetworks.DifferenceWithSingle | src/reducers/chainNetworks.ts:65-69 | one element is kept exactly when no removed element equals it. With the previous row this fixes the result for every input |
| ChainNetworks.DifferenceWithCount | src/reducers/chainNetworks.ts:65-69 | every occurrence of a kept element is kept, and no occurrence of a removed one |
| ChainNetworks.DifferenceByNameAppend | src/reducers/chainNetworks.ts:39-43 | `_.differenceBy` distributes over concatenation, so new nodes are appended in the action's order |
| ChainNetworks.DifferenceByNameSingle | src/reducers/chainNetworks.ts:39-43 | one node is kept exactly when no known node has its name. With the previous row this fixes the new nodes for every input |
| ChainNetworks.DifferenceByNameCount | src/reducers/chainNetworks.ts:39-43 | each action node with an unknown name is appended as often as it occurs in the action |
| ChainNetworks.DifferenceWithMembership | src/reducers/chainNetworks.ts:65-69 | a connection survives removal if and only if it is present and not removed |
| ChainNetworks.ConnectionsAppendInOrder | src/reducers/chainNetworks.ts:57-60 | with nothing to remove, the connections are the old ones followed by the added ones, in order |
| ChainNetworks.EmptyEditListsAreAbsent | src/reducers/chainNetworks.ts:57-70 | empty added and removed lists act as if they were absent |
| PrintDiskUsage.TotalSpace | client/src/bin/print_disk_usage.rs:57-58 | the transcription of the running `total` after the given disks, each cast `as i64`; `GetDiskUsage`, `SpaceAppend` and `TotalsIgnoreDiskOrder` are about it |
| PrintDiskUsage.AvailableSpace | client/src/bin/print_disk_usage.rs:57-59 | the transcription of the running `available` after the given disks, each cast `as i64`; the same lemmas are about it |
| PrintDiskUsage.GetDiskUsage | client/src/bin/print_disk_usage.rs:50-74 | one entry per disk (none for no disks); entry `i` holds the total and the available space summed over disks 0 to `i` |
| PrintDiskUsage.LastEntryIsTotal | client/src/bin/print_disk_usage.rs:57-73 | the last entry holds the totals over all disks |
| PrintDiskUsage.RunningTotalsNonDecreasing | client/src/bin/print_disk_usage.rs:58-59 | when every figure fits in `i64`, the running totals never decrease along the list |
| PrintDiskUsage.SpaceAppend | client/src/bin/print_disk_usage.rs:58-59 | the figures over two lists of disks add up |
| PrintDiskUsage.RemoveDisk | client/src/bin/print_disk_usage.rs:58-59 | taking one disk out of the list removes exactly its figures from the totals |
| PrintDiskUsage.SpaceSplit | client/src/bin/print_disk_usage.rs:58-59 | the figures of a list with one disk inserted are those of the list without it plus that disk's |
| PrintDiskUsage.TotalsIgnoreDiskOrder | client/src/bin/print_disk_usage.rs:57-73 | the totals, and so the last entry, are the same for any ordering of the same disks |
| PrintDiskUsage.OversizedDiskCountsNegative | client/src/bin/print_disk_usage.rs:58 | a disk reporting more than `i64::MAX` bytes adds a negative amount |

## Left out

- **The JSON-RPC plumbing and the CodeChain RPC getters.** Each call is represented only by its answer in `PollResponses`. So are the database's answer to the registration (including the timeout) and the agent service's answer to `AddAgent`.
- **Threads, locks and sleeping.** The `RwLock` on the state, `thread::spawn` and the ten- and thousand-second sleeps are not modelled. Each poll and each date check is one element of an input sequence.
- **The `get_agent_extra` database lookup (server/src/agent/agent.rs:171), `START_AT_CONNECT` and `shell_start_codechain`.** After a successful registration the agent reads the node's previous environment and arguments from the database; when `START_AT_CONNECT` is set it then starts a remote process with them. The lookup is not recorded in `dbLog`. None of these changes the state or the alerts, and a failure of any of them is ignored or only logged.
- **Logging.** The `cinfo!` and `cerror!` lines are not modelled. Neither are the failures of sending `RemoveAgent` and of closing the websocket in `clean_up`, which are only logged. A failed `AddAgent` send is not only logged: it fails the run, and the model does model it that way.
- **The database, agent and notification services.** These are not part of this model. Their requests are recorded in logs; nothing is delivered.
- **`Debug` renderings.** A socket address is kept as its `Debug` text, and the database error as the text of its `Debug` rendering. The `Debug` of `NodeStatus` is the variant name.
- **Floating point.** `percentage_used`, `cpu_usage` and the graph values are absent from the hardware records.
- **Clock and dates.** A date is an integer day number. Only equality matters to the reporter, and order is used only to state `DailyReporter.OneReportPerDay`.
- **`reset_maximum_memory_usages`.** It runs after the states are read, so it does not change the report. The agent service that performs it is not part of this model.
- **Integer widths.**
  - Agent.Agent.WatchConnectivity: the counters are unbounded naturals; `usize` overflow after 2^64 polls is not modelled.
  - PrintDiskUsage.GetDiskUsage: the running sums are unbounded, so `i64` overflow of the sum is not modelled. The `as i64` cast of each figure is modelled.
  - DailyReporter.MbTotal: the sums are unbounded; an `i64` overflow is not modelled.
  - DailyReporter.MemoryLine: the `i64` subtraction of free from total memory is unbounded; its overflow is not modelled.
- **`deepmerge`.** The merge of two nodes is an arbitrary function parameter. `ChainNetworks.UpdatedNames` assumes only that merging two nodes of the same name keeps that name. Lodash's deep clone is the identity on values.
- **Non-period strings in `GraphPeriod` deserialisation.** They reach `unreachable!()`, a panic, which is modelled as the precondition of `CommonRpcTypes.DeserializePeriod`.
- **Continuing after the responses run out.** `Agent.Agent.Run` returns `Polling` when the responses end, where the source would keep polling forever.
- **Aliasing of the agent's state.** The sender also holds the state through an `Arc`. Only the agent's own use of it is modelled.
