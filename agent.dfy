/**
  The per-node supervisor: the session state machine, the transition that
  `update` performs on each poll, the polling loop `run` with its alert
  detectors, and the idempotent `clean_up`. Every remote call, the
  database's answer to the registration, and the agent service's answer to
  `AddAgent` are inputs; every request the agent makes of the database, the
  agent service, the notifier and the websocket is recorded in a log.
 */
module Agent {
  import opened Prelude
  import opened CommonRpcTypes
  import opened Noti
  import opened AgentAlerts

  /** A socket address, kept as its `Debug` rendering. */
  type SocketAddr = string

  datatype StopCause = AlreadyConnected

  datatype State =
    | Initializing
    | Normal(name: NodeName, address: Option<SocketAddr>, status: NodeStatus)
    | Stop(name: NodeName, address: Option<SocketAddr>, status: NodeStatus, cause: StopCause)
  {
    /** `State::name`: the node's name once it is known. */
    function Name(): (r: Option<NodeName>)
      ensures r.None? <==> Initializing?
      ensures !Initializing? ==> r == Some(name)
    {
      match this
      case Initializing => None
      case Normal(name, _, _) => Some(name)
      case Stop(name, _, _, _) => Some(name)
    }
  }

  datatype AgentCleanupReason = Error(message: string) | Success | AlreadyConnected | Unexpected

  /** The answer to `agent_getInfo`. */
  datatype AgentGetInfoResponse = AgentGetInfoResponse(
    name: NodeName,
    address: Option<SocketAddr>,
    status: NodeStatus,
    codechainCommitHash: string,
    codechainBinaryChecksum: string)

  /** The row the database keeps per node. */
  datatype AgentQueryResult = AgentQueryResult(
    name: NodeName,
    status: NodeStatus,
    address: Option<SocketAddr>,
    peers: seq<SocketAddr>,
    bestBlockId: Option<BlockId>,
    version: Option<NodeVersion>,
    pendingTransactions: seq<PendingTransaction>,
    whitelist: Option<WhiteList>,
    blacklist: Option<WhiteList>,
    hardware: Option<HardwareInfo>)

  /** `AgentQueryResult::default()`. */
  function DefaultQueryResult(): (row: AgentQueryResult)
    ensures row.status == DefaultNodeStatus()
  {
    AgentQueryResult("", DefaultNodeStatus(), None, [], None, None, [], None, None, None)
  }

  /** A request to the database service. */
  datatype DbRequest =
    | InitializeAgentQueryResult(row: AgentQueryResult)
    | UpdateAgentQueryResult(row: AgentQueryResult)
    | WriteLogs(nodeName: NodeName, logs: seq<StructuredLog>)

  /** A message to the agent service. */
  datatype ServiceMessage = AddAgent(agentId: int) | RemoveAgent(agentId: int)

  datatype WsCloseCode = Normal | Error

  /** A `close_with_reason` on the agent's websocket. */
  datatype WsClose = WsClose(code: WsCloseCode, reason: string)

  /**
    The answers to the calls one `update` may make, in call order. A call
    that fails carries the message it is turned into. For the database's
    registration, `None` is a timeout and `Some(false)` a rejection.
   */
  datatype PollResponses = PollResponses(
    agentGetInfo: Result<AgentGetInfoResponse, string>,
    initializeAgentQueryResult: Option<bool>,
    peers: Result<seq<SocketAddr>, string>,
    bestBlockId: Result<Option<BlockId>, string>,
    version: Result<Option<string>, string>,
    commitHash: Result<Option<string>, string>,
    pendingTransactions: Result<seq<PendingTransaction>, string>,
    networkId: Result<Option<string>, string>,
    whitelist: Result<Option<WhiteList>, string>,
    blacklist: Result<Option<WhiteList>, string>,
    hardwareGet: Result<HardwareInfo, string>,
    logs: Result<seq<StructuredLog>, string>)

  datatype UpdateResult = UpdateResult(
    networkId: string,
    numberOfPeers: nat,
    bestBlockNumber: Option<U64>,
    diskUsage: HardwareUsage)

  /** What one `update` returns, the state it leaves, and the database requests it makes. */
  datatype UpdateOutcome = UpdateOutcome(
    result: Result<Option<UpdateResult>, string>,
    state: State,
    dbRequests: seq<DbRequest>)

  /** How `run` ends: by the duplicate-name stop, by an error, or still polling when the responses run out. */
  datatype RunOutcome = Stopped(cause: StopCause) | Failed(error: string) | Polling

  /** The first failing call among those `update` makes from peers to hardware. */
  function MonitoringError(r: PollResponses): Option<string>
  {
    if r.peers.Failure? then Some(r.peers.error)
    else if r.bestBlockId.Failure? then Some(r.bestBlockId.error)
    else if r.version.Failure? then Some(r.version.error)
    else if r.commitHash.Failure? then Some(r.commitHash.error)
    else if r.pendingTransactions.Failure? then Some(r.pendingTransactions.error)
    else if r.networkId.Failure? then Some(r.networkId.error)
    else if r.whitelist.Failure? then Some(r.whitelist.error)
    else if r.blacklist.Failure? then Some(r.blacklist.error)
    else if r.hardwareGet.Failure? then Some("Agent Update " + r.hardwareGet.error)
    else None
  }

  /** The error a monitoring poll fails with, or `None` when every call of it succeeds. */
  function PollError(r: PollResponses): Option<string>
  {
    if r.agentGetInfo.Failure? then Some(r.agentGetInfo.error)
    else if MonitoringError(r).Some? then MonitoringError(r)
    else if r.logs.Failure? then Some(r.logs.error)
    else None
  }

  predicate PollSucceeds(r: PollResponses) {
    PollError(r).None?
  }

  /** The version stored with a snapshot: the node's own, else the agent's commit hash with an empty version. */
  function ReportedVersion(info: AgentGetInfoResponse, version: Option<string>, hash: Option<string>): (v: NodeVersion)
    ensures v.binaryChecksum == info.codechainBinaryChecksum
    ensures v.version == "" || version == Some(v.version)
    ensures version.Some? && hash.Some? ==> v.version == version.value && v.hash == hash.value
    ensures version.None? || hash.None? ==> v.version == "" && v.hash == info.codechainCommitHash
  {
    if version.Some? && hash.Some? then NodeVersion(version.value, hash.value, info.codechainBinaryChecksum)
    else NodeVersion("", info.codechainCommitHash, info.codechainBinaryChecksum)
  }

  /** The row offered to the database when the agent registers. */
  function InitialSnapshot(info: AgentGetInfoResponse): AgentQueryResult
  {
    DefaultQueryResult().(
      name := info.name,
      status := info.status,
      address := info.address,
      version := Some(NodeVersion("", info.codechainCommitHash, info.codechainBinaryChecksum)))
  }

  /** The full row written on a monitoring poll. */
  function MonitoringSnapshot(info: AgentGetInfoResponse, r: PollResponses): AgentQueryResult
    requires MonitoringError(r).None?
  {
    AgentQueryResult(
      info.name,
      info.status,
      info.address,
      r.peers.value,
      r.bestBlockId.value,
      Some(ReportedVersion(info, r.version.value, r.commitHash.value)),
      r.pendingTransactions.value,
      r.whitelist.value,
      r.blacklist.value,
      Some(r.hardwareGet.value))
  }

  function BlockNumberOf(id: Option<BlockId>): Option<U64>
  {
    match id
    case None => None
    case Some(b) => Some(AsU64(b.blockNumber))
  }

  function UpdateResultOf(r: PollResponses): UpdateResult
    requires MonitoringError(r).None?
  {
    UpdateResult(
      match r.networkId.value case None => "" case Some(n) => n,
      |r.peers.value|,
      BlockNumberOf(r.bestBlockId.value),
      r.hardwareGet.value.diskUsage)
  }

  /** `Agent::update` as a transition on the state. */
  function UpdateSpec(s: State, r: PollResponses): UpdateOutcome
  {
    match r.agentGetInfo
    case Failure(e) => UpdateOutcome(Failure(e), s, [])
    case Success(info) =>
      if s.Initializing? then
        var requests := [InitializeAgentQueryResult(InitialSnapshot(info))];
        match r.initializeAgentQueryResult
        case None => UpdateOutcome(Failure("DB timeout"), s, requests)
        case Some(accepted) =>
          if accepted then UpdateOutcome(Result.Success(None), State.Normal(info.name, info.address, info.status), requests)
          else UpdateOutcome(Result.Success(None), State.Stop(info.name, info.address, info.status, StopCause.AlreadyConnected), requests)
      else
        match MonitoringError(r)
        case Some(e) => UpdateOutcome(Failure(e), s, [])
        case None =>
          var written := [UpdateAgentQueryResult(MonitoringSnapshot(info, r))];
          var next := State.Normal(info.name, info.address, info.status);
          match r.logs
          case Failure(e) => UpdateOutcome(Failure(e), next, written)
          case Success(logs) => UpdateOutcome(Result.Success(Some(UpdateResultOf(r))), next, written + [WriteLogs(info.name, logs)])
  }

  /** What the detectors take from a successful monitoring poll. */
  function ObservationOf(r: PollResponses): Observation
    requires PollSucceeds(r)
  {
    var u := UpdateResultOf(r);
    Observation(u.networkId, r.agentGetInfo.value.name, u.numberOfPeers, u.bestBlockNumber, u.diskUsage.available)
  }

  /** A failed `agent_getInfo` aborts the update and leaves the state as it was. */
  lemma UpdateInfoFailureKeepsState(s: State, r: PollResponses)
    requires r.agentGetInfo.Failure?
    ensures UpdateSpec(s, r) == UpdateOutcome(Failure(r.agentGetInfo.error), s, [])
  {
  }

  /**
    From `Initializing` the update only registers: it never yields a result,
    and the database's answer decides between `Normal` and `Stop`.
   */
  lemma UpdateFromInitializing(r: PollResponses)
    requires r.agentGetInfo.Success?
    ensures var o := UpdateSpec(State.Initializing, r);
      var info := r.agentGetInfo.value;
      && o.dbRequests == [InitializeAgentQueryResult(InitialSnapshot(info))]
      && (r.initializeAgentQueryResult == Some(true) ==>
            o.result == Result.Success(None) && o.state == State.Normal(info.name, info.address, info.status))
      && (r.initializeAgentQueryResult == Some(false) ==>
            o.result == Result.Success(None) && o.state == State.Stop(info.name, info.address, info.status, StopCause.AlreadyConnected))
      && (r.initializeAgentQueryResult == None ==>
            o.result == Failure("DB timeout") && o.state == State.Initializing)
  {
  }

  /**
    Once registered, an update fails exactly when one of its calls fails,
    with that call's message; if every call succeeds the state takes the
    fresh info and the result counts the peers and carries the best block
    number.
   */
  lemma UpdateFromMonitoredState(s: State, r: PollResponses)
    requires !s.Initializing?
    ensures UpdateSpec(s, r).result.Failure? <==> PollError(r).Some?
    ensures PollError(r).Some? ==> UpdateSpec(s, r).result.error == PollError(r).value
    ensures PollSucceeds(r) ==>
      var info := r.agentGetInfo.value;
      var o := UpdateSpec(s, r);
      && o.state == State.Normal(info.name, info.address, info.status)
      && o.result == Result.Success(Some(UpdateResultOf(r)))
      && o.result.value.value.numberOfPeers == |r.peers.value|
      && o.result.value.value.bestBlockNumber == BlockNumberOf(r.bestBlockId.value)
      && o.dbRequests == [UpdateAgentQueryResult(MonitoringSnapshot(info, r)), WriteLogs(info.name, r.logs.value)]
  {
  }

  /**
    The snapshot is written and the state replaced before the logs are
    fetched, so a failing log fetch still leaves the fresh state behind.
   */
  lemma UpdateLogFailureKeepsFreshState(s: State, r: PollResponses)
    requires !s.Initializing? && r.agentGetInfo.Success? && MonitoringError(r).None? && r.logs.Failure?
    ensures var info := r.agentGetInfo.value;
      UpdateSpec(s, r) == UpdateOutcome(
        Failure(r.logs.error),
        State.Normal(info.name, info.address, info.status),
        [UpdateAgentQueryResult(MonitoringSnapshot(info, r))])
  {
  }

  /** No update leads back to `Initializing`: a known name stays known. */
  lemma UpdateNeverReinitializes(s: State, r: PollResponses)
    ensures UpdateSpec(s, r).state.Initializing? ==> s.Initializing? && UpdateSpec(s, r).result.Failure?
  {
  }

  /**
    A successful update leaves the session stopped exactly when it was the
    registration and the database rejected the node's name.
   */
  lemma UpdateStopsOnlyOnRejection(s: State, r: PollResponses)
    ensures UpdateSpec(s, r).result.Success? && UpdateSpec(s, r).state.Stop? <==>
      s.Initializing? && r.agentGetInfo.Success? && r.initializeAgentQueryResult == Some(false)
  {
  }

  /** The state and the database requests after a run of updates. */
  datatype UpdateTrace = UpdateTrace(state: State, dbRequests: seq<DbRequest>)

  /** `update` applied to each of the given polls in turn, from state `s`. */
  function UpdateRun(s: State, polls: seq<PollResponses>): UpdateTrace
    decreases |polls|
  {
    if polls == [] then UpdateTrace(s, [])
    else
      var first := UpdateSpec(s, polls[0]);
      var rest := UpdateRun(first.state, polls[1..]);
      UpdateTrace(rest.state, first.dbRequests + rest.dbRequests)
  }

  /** One more poll takes one more update from where the run left off, and appends its requests. */
  lemma {:induction false} UpdateRunSnoc(s: State, polls: seq<PollResponses>, p: PollResponses)
    ensures var before := UpdateRun(s, polls);
      var step := UpdateSpec(before.state, p);
      UpdateRun(s, polls + [p]) == UpdateTrace(step.state, before.dbRequests + step.dbRequests)
    decreases |polls|
  {
    if polls == [] {
      assert polls + [p] == [p] && [p][1..] == [];
    } else {
      var first := UpdateSpec(s, polls[0]);
      assert (polls + [p])[1..] == polls[1..] + [p];
      UpdateRunSnoc(first.state, polls[1..], p);
      var rest := UpdateRun(first.state, polls[1..]);
      AppendAssociative(first.dbRequests, rest.dbRequests, UpdateSpec(rest.state, p).dbRequests);
    }
  }

  /** The run over the first `i + 1` polls is the run over the first `i` and one more update. */
  lemma UpdateRunStep(s: State, polls: seq<PollResponses>, i: nat)
    requires i < |polls|
    ensures var before := UpdateRun(s, polls[..i]);
      var step := UpdateSpec(before.state, polls[i]);
      UpdateRun(s, polls[..i + 1]) == UpdateTrace(step.state, before.dbRequests + step.dbRequests)
  {
    assert polls[..i] + [polls[i]] == polls[..i + 1];
    UpdateRunSnoc(s, polls[..i], polls[i]);
  }

  /** A run of updates over a prefix is the first update followed by the run over the rest of it. */
  lemma MonitoredAfterFirst(s: State, polls: seq<PollResponses>, m: nat)
    requires m < |polls|
    ensures var first := UpdateSpec(s, polls[0]);
      var rest := UpdateRun(first.state, polls[1..][..m]);
      UpdateRun(s, polls[..m + 1]) == UpdateTrace(rest.state, first.dbRequests + rest.dbRequests)
  {
    assert polls[..m + 1][1..] == polls[1..][..m];
  }

  /** The best block number is the block number read as `u64`. */
  lemma BlockNumberConversion(id: BlockId)
    ensures BlockNumberOf(Some(id)).Some?
    ensures id.blockNumber >= 0 ==> BlockNumberOf(Some(id)).value == id.blockNumber
    ensures id.blockNumber < 0 ==> BlockNumberOf(Some(id)).value == id.blockNumber + U64_MODULUS
  {
  }

  /** The websocket close code `clean_up` chooses. */
  function CloseCodeFor(reason: AgentCleanupReason): (c: WsCloseCode)
    ensures c == WsCloseCode.Normal <==> reason.Success?
  {
    match reason
    case Error(_) => WsCloseCode.Error
    case Unexpected => WsCloseCode.Error
    case AlreadyConnected => WsCloseCode.Error
    case Success => WsCloseCode.Normal
  }

  /** The close reason text `clean_up` sends. */
  function CloseReason(reason: AgentCleanupReason): (m: string)
    ensures reason.Error? ==> m == reason.message
    ensures m == "" <==> reason.Success? || reason == AgentCleanupReason.Error("")
  {
    match reason
    case Error(message) => message
    case Unexpected => "Unexpected cleanup"
    case AlreadyConnected => "An agent which has same name is already connected"
    case Success => ""
  }

  /** The database write `clean_up` makes: an `Error` row, only for a `Normal` session. */
  function FinalSnapshot(s: State): (w: seq<DbRequest>)
    ensures |w| <= 1
    ensures w != [] <==> s.Normal?
    ensures s.Normal? ==>
      w[0].UpdateAgentQueryResult? && w[0].row.name == s.name && w[0].row.address == s.address
      && w[0].row.status == NodeStatus.Error
  {
    if s.Normal? then
      [UpdateAgentQueryResult(DefaultQueryResult().(name := s.name, status := NodeStatus.Error, address := s.address))]
    else []
  }

  /** `observed` is what the detectors took from the first polls, all of which succeeded. */
  predicate ObservedPolls(observed: seq<Observation>, polls: seq<PollResponses>) {
    && |observed| <= |polls|
    && forall k :: 0 <= k < |observed| ==> PollSucceeds(polls[k]) && observed[k] == ObservationOf(polls[k])
  }

  lemma ObservedPollsSnoc(observed: seq<Observation>, polls: seq<PollResponses>, o: Observation)
    requires ObservedPolls(observed, polls) && |observed| < |polls|
    requires PollSucceeds(polls[|observed|]) && o == ObservationOf(polls[|observed|])
    ensures ObservedPolls(observed + [o], polls)
  {
  }

  /** Whether `run` gets as far as sending `AddAgent`. */
  predicate Registers(s: State, polls: seq<PollResponses>, addAgent: Result<(), string>) {
    && |polls| > 0
    && UpdateSpec(s, polls[0]).result.Success?
    && !UpdateSpec(s, polls[0]).state.Stop?
    && addAgent.Success?
  }

  /**
    Why a run failed: its registering update failed, `AddAgent` failed, or
    the monitoring poll after the `observedCount` that succeeded failed.
   */
  predicate RunFailure(s: State, polls: seq<PollResponses>, addAgent: Result<(), string>, observedCount: nat, error: string) {
    && |polls| > 0
    && if UpdateSpec(s, polls[0]).result.Failure? then
         error == UpdateSpec(s, polls[0]).result.error && observedCount == 0
       else if addAgent.Failure? then
         error == "AddAgent failed " + addAgent.error && observedCount == 0
       else
         observedCount + 1 < |polls| && PollError(polls[observedCount + 1]) == Some(error)
  }

  /** The reason `run_thread` passes to `clean_up` once `run` has returned. */
  function CleanupReasonOf(outcome: RunOutcome): (reason: AgentCleanupReason)
    requires !outcome.Polling?
    ensures outcome.Stopped? ==> reason == AgentCleanupReason.AlreadyConnected
    ensures outcome.Failed? ==> reason == AgentCleanupReason.Error(outcome.error)
    ensures !reason.Success?
  {
    if outcome.Stopped? then AgentCleanupReason.AlreadyConnected else AgentCleanupReason.Error(outcome.error)
  }

  class Agent {
    const id: int
    var state: State
    var closed: bool
    var dbLog: seq<DbRequest>
    var serviceLog: seq<ServiceMessage>
    var notifications: seq<Notification>
    var wsCloses: seq<WsClose>

    /** `Agent::new`. */
    constructor (id: int)
      ensures this.id == id && state == State.Initializing && !closed
      ensures dbLog == [] && serviceLog == [] && notifications == [] && wsCloses == []
    {
      this.id := id;
      state := State.Initializing;
      closed := false;
      dbLog := [];
      serviceLog := [];
      notifications := [];
      wsCloses := [];
    }

    /** `Agent::update`. */
    method Update(r: PollResponses) returns (result: Result<Option<UpdateResult>, string>)
      modifies this`state, this`dbLog
      ensures result == UpdateSpec(old(state), r).result
      ensures state == UpdateSpec(old(state), r).state
      ensures dbLog == old(dbLog) + UpdateSpec(old(state), r).dbRequests
    {
      if r.agentGetInfo.Failure? {
        return Failure(r.agentGetInfo.error);
      }
      var info := r.agentGetInfo.value;
      var newState := State.Normal(info.name, info.address, info.status);

      if state.Initializing? {
        dbLog := dbLog + [InitializeAgentQueryResult(InitialSnapshot(info))];
        if r.initializeAgentQueryResult.None? {
          return Failure("DB timeout");
        }
        var success := r.initializeAgentQueryResult.value;
        if !success {
          state := State.Stop(info.name, info.address, info.status, StopCause.AlreadyConnected);
          return Result.Success(None);
        }
        state := newState;
        return Result.Success(None);
      }

      if r.peers.Failure? { return Failure(r.peers.error); }
      var peers := r.peers.value;
      if r.bestBlockId.Failure? { return Failure(r.bestBlockId.error); }
      var bestBlockId := r.bestBlockId.value;
      if r.version.Failure? { return Failure(r.version.error); }
      if r.commitHash.Failure? { return Failure(r.commitHash.error); }
      var version := ReportedVersion(info, r.version.value, r.commitHash.value);
      if r.pendingTransactions.Failure? { return Failure(r.pendingTransactions.error); }
      if r.networkId.Failure? { return Failure(r.networkId.error); }
      var networkId := r.networkId.value;
      if r.whitelist.Failure? { return Failure(r.whitelist.error); }
      if r.blacklist.Failure? { return Failure(r.blacklist.error); }
      if r.hardwareGet.Failure? { return Failure("Agent Update " + r.hardwareGet.error); }
      var hardware := r.hardwareGet.value;

      var numberOfPeers := |peers|;
      var diskUsage := hardware.diskUsage;
      dbLog := dbLog + [UpdateAgentQueryResult(AgentQueryResult(
        info.name, info.status, info.address, peers, bestBlockId, Some(version),
        r.pendingTransactions.value, r.whitelist.value, r.blacklist.value, Some(hardware)))];
      state := newState;

      if r.logs.Failure? { return Failure(r.logs.error); }
      dbLog := dbLog + [WriteLogs(info.name, r.logs.value)];

      var bestBlockNumber: Option<U64> := None;
      if bestBlockId.Some? {
        bestBlockNumber := Some(AsU64(bestBlockId.value.blockNumber));
      }
      return Result.Success(Some(UpdateResult(
        if networkId.Some? then networkId.value else "",
        numberOfPeers,
        bestBlockNumber,
        diskUsage)));
    }

    /**
      `Agent::run` over the responses to successive polls: one registering
      update, `AddAgent`, then the polling loop. `observed` lists the
      monitoring polls the detectors saw, in order.
     */
    method Run(polls: seq<PollResponses>, addAgent: Result<(), string>)
      returns (outcome: RunOutcome, ghost observed: seq<Observation>, ghost processed: nat)
      modifies this`state, this`dbLog, this`serviceLog, this`notifications
      ensures |polls| == 0 ==>
        outcome == Polling && state == old(state) && dbLog == old(dbLog) && observed == []
      ensures outcome.Stopped? <==>
        |polls| > 0 && old(state).Initializing? && polls[0].agentGetInfo.Success?
        && polls[0].initializeAgentQueryResult == Some(false)
      ensures outcome.Stopped? ==>
        outcome.cause == StopCause.AlreadyConnected && state.Stop? && state == UpdateSpec(old(state), polls[0]).state
        && dbLog == old(dbLog) + UpdateSpec(old(state), polls[0]).dbRequests
      ensures outcome.Failed? ==> RunFailure(old(state), polls, addAgent, |observed|, outcome.error)
      ensures serviceLog == old(serviceLog) + (if Registers(old(state), polls, addAgent) then [AddAgent(id)] else [])
      ensures !Registers(old(state), polls, addAgent) ==> observed == []
      ensures outcome.Polling? && |polls| > 0 ==> |observed| == |polls| - 1
      ensures observed == [] || |observed| < |polls|
      ensures |polls| > 0 ==> ObservedPolls(observed, polls[1..])
      ensures notifications == old(notifications) + AlertNotifications(Alerts(observed))
      ensures processed <= |polls|
      ensures outcome.Polling? ==> processed == |polls|
      ensures outcome.Stopped? ==> processed == 1
      ensures outcome.Failed? ==> processed == if Registers(old(state), polls, addAgent) then |observed| + 2 else 1
      ensures state == UpdateRun(old(state), polls[..processed]).state
      ensures dbLog == old(dbLog) + UpdateRun(old(state), polls[..processed]).dbRequests
      ensures Registers(old(state), polls, addAgent) ==> state.Normal?
    {
      observed := [];
      if |polls| == 0 {
        return Polling, observed, 0;
      }
      ghost var start, startLog := state, dbLog;
      var first := Update(polls[0]);
      ghost var firstStep := UpdateSpec(start, polls[0]);
      UpdateStopsOnlyOnRejection(start, polls[0]);
      UpdateNeverReinitializes(start, polls[0]);
      assert polls[..1] == [polls[0]] && [polls[0]][1..] == [];
      assert UpdateRun(start, polls[..1]) == UpdateTrace(firstStep.state, firstStep.dbRequests + []);
      assert firstStep.dbRequests + [] == firstStep.dbRequests;
      if first.Failure? {
        return Failed(first.error), observed, 1;
      }
      if state.Stop? {
        return Stopped(state.cause), observed, 1;
      }
      if addAgent.Failure? {
        return Failed("AddAgent failed " + addAgent.error), observed, 1;
      }
      serviceLog := serviceLog + [AddAgent(id)];
      var error;
      ghost var monitored;
      error, observed, monitored := Monitor(polls[1..]);
      MonitoredAfterFirst(start, polls, monitored);
      AppendAssociative(startLog, firstStep.dbRequests, UpdateRun(firstStep.state, polls[1..][..monitored]).dbRequests);
      if error.Some? {
        return Failed(error.value), observed, monitored + 1;
      }
      return Polling, observed, monitored + 1;
    }

    /**
      The loop of `Agent::run`: update, then the detectors on that poll's
      result, until an update fails.
     */
    method Monitor(polls: seq<PollResponses>)
      returns (error: Option<string>, ghost observed: seq<Observation>, ghost processed: nat)
      requires state.Normal?
      modifies this`state, this`dbLog, this`notifications
      ensures state.Normal?
      ensures error.None? ==> |observed| == |polls|
      ensures error.Some? ==> |observed| < |polls| && PollError(polls[|observed|]) == error
      ensures processed == if error.Some? then |observed| + 1 else |polls|
      ensures state == UpdateRun(old(state), polls[..processed]).state
      ensures dbLog == old(dbLog) + UpdateRun(old(state), polls[..processed]).dbRequests
      ensures ObservedPolls(observed, polls)
      ensures notifications == old(notifications) + AlertNotifications(Alerts(observed))
    {
      observed := [];
      var detectors := INITIAL_DETECTORS;
      var i := 0;
      while i < |polls|
        invariant 0 <= i <= |polls|
        invariant state.Normal?
        invariant |observed| == i
        invariant state == UpdateRun(old(state), polls[..i]).state
        invariant dbLog == old(dbLog) + UpdateRun(old(state), polls[..i]).dbRequests
        invariant ObservedPolls(observed, polls)
        invariant detectors == Detect(observed)
        invariant notifications == old(notifications) + AlertNotifications(Alerts(observed))
      {
        ghost var before := UpdateRun(old(state), polls[..i]);
        UpdateRunStep(old(state), polls, i);
        AppendAssociative(old(dbLog), before.dbRequests, UpdateSpec(state, polls[i]).dbRequests);
        var pollError;
        pollError, detectors := MonitorPoll(polls[i], detectors);
        if pollError.Some? {
          return pollError, observed, i + 1;
        }
        ghost var o := ObservationOf(polls[i]);
        ObservedPollsSnoc(observed, polls, o);
        DetectSnoc(observed, o);
        AlertNotificationsAppend(Alerts(observed), Observe(Detect(observed), o).alerts);
        AppendAssociative(old(notifications), AlertNotifications(Alerts(observed)), AlertNotifications(Observe(Detect(observed), o).alerts));
        observed := observed + [o];
        i := i + 1;
      }
      assert polls[..i] == polls;
      return None, observed, i;
    }

    /**
      One pass of the loop of `Agent::run`: the update, then, when it
      succeeds, the detectors on what it returned. A failing update ends the
      pass with its error and leaves the detectors as they were.
     */
    method MonitorPoll(r: PollResponses, d: Detectors) returns (error: Option<string>, next: Detectors)
      requires state.Normal?
      modifies this`state, this`dbLog, this`notifications
      ensures state.Normal?
      ensures state == UpdateSpec(old(state), r).state
      ensures dbLog == old(dbLog) + UpdateSpec(old(state), r).dbRequests
      ensures error == PollError(r)
      ensures error.Some? ==> next == d && notifications == old(notifications)
      ensures error.None? ==>
        && next == Observe(d, ObservationOf(r)).next
        && notifications == old(notifications) + AlertNotifications(Observe(d, ObservationOf(r)).alerts)
    {
      UpdateFromMonitoredState(state, r);
      var updateResult := Update(r);
      if updateResult.Failure? {
        return Some(updateResult.error), d;
      }
      var u := updateResult.value.value;
      var o := Observation(u.networkId, state.name, u.numberOfPeers, u.bestBlockNumber, u.diskUsage.available);
      assert o == ObservationOf(r);
      next := Watch(d, o);
      error := None;
    }

    /**
      The detector part of the loop body of `Agent::run` on one successful
      poll: connectivity, then stall, then disk.
     */
    method Watch(d: Detectors, o: Observation) returns (next: Detectors)
      modifies this`notifications
      ensures next == Observe(d, o).next
      ensures notifications == old(notifications) + AlertNotifications(Observe(d, o).alerts)
    {
      ghost var connectivity := ObserveConnectivity(d.lowPeerPolls, o).1;
      ghost var stall := ObserveStall(d.bestBlockMark, d.staleBlockPolls, o).2;
      ghost var disk := ObserveDisk(d.diskAlertSent, o).1;
      assert Observe(d, o).alerts == connectivity + stall + disk;
      ghost var before := notifications;
      var countOfNoEnoughConnections := WatchConnectivity(d.lowPeerPolls, o);
      ghost var afterConnectivity := notifications;
      var previousBestBlockNumber, countOfNoBlockUpdate := WatchStall(d.bestBlockMark, d.staleBlockPolls, o);
      ghost var afterStall := notifications;
      var diskUsageAlertSent := WatchDisk(d.diskAlertSent, o);
      AlertNotificationsAppend(connectivity, stall);
      AlertNotificationsAppend(connectivity + stall, disk);
      ghost var sentNow := AlertNotifications(connectivity) + AlertNotifications(stall) + AlertNotifications(disk);
      assert AlertNotifications(connectivity + stall + disk) == sentNow;
      AppendAssociative(before, AlertNotifications(connectivity), AlertNotifications(stall));
      AppendAssociative(before, AlertNotifications(connectivity) + AlertNotifications(stall), AlertNotifications(disk));
      assert notifications == afterStall + AlertNotifications(disk);
      next := Detectors(countOfNoEnoughConnections, previousBestBlockNumber, countOfNoBlockUpdate, diskUsageAlertSent);
    }

    /** Too few peers for six polls in a row sends one warning. */
    method WatchConnectivity(count: nat, o: Observation) returns (countOfNoEnoughConnections: nat)
      modifies this`notifications
      ensures countOfNoEnoughConnections == ObserveConnectivity(count, o).0
      ensures notifications == old(notifications) + AlertNotifications(ObserveConnectivity(count, o).1)
    {
      countOfNoEnoughConnections := count;
      if o.numberOfPeers < LOW_PEER_LIMIT {
        countOfNoEnoughConnections := countOfNoEnoughConnections + 1;
      } else {
        countOfNoEnoughConnections := 0;
      }
      if countOfNoEnoughConnections == LOW_PEER_ALERT_POLLS {
        notifications := notifications + [AlertNotification(NotEnoughConnections(o.networkId, o.nodeName))];
      }
    }

    /** A best block that has not risen for three polls sends one warning. */
    method WatchStall(mark: U64, stale: nat, o: Observation)
      returns (previousBestBlockNumber: U64, countOfNoBlockUpdate: nat)
      modifies this`notifications
      ensures previousBestBlockNumber == ObserveStall(mark, stale, o).0
      ensures countOfNoBlockUpdate == ObserveStall(mark, stale, o).1
      ensures notifications == old(notifications) + AlertNotifications(ObserveStall(mark, stale, o).2)
    {
      previousBestBlockNumber, countOfNoBlockUpdate := mark, stale;
      if o.bestBlockNumber.Some? {
        var bestBlockNumber := o.bestBlockNumber.value;
        if bestBlockNumber > previousBestBlockNumber {
          countOfNoBlockUpdate := 0;
          previousBestBlockNumber := bestBlockNumber;
        } else {
          countOfNoBlockUpdate := countOfNoBlockUpdate + 1;
        }
        if countOfNoBlockUpdate == STALL_ALERT_POLLS {
          notifications := notifications + [AlertNotification(NoBlockUpdate(o.networkId, o.nodeName))];
        }
      }
    }

    /** Dropping under 1 GB free sends one warning; rising above 1 GB re-arms it. */
    method WatchDisk(sent: bool, o: Observation) returns (diskUsageAlertSent: bool)
      modifies this`notifications
      ensures diskUsageAlertSent == ObserveDisk(sent, o).0
      ensures notifications == old(notifications) + AlertNotifications(ObserveDisk(sent, o).1)
    {
      diskUsageAlertSent := sent;
      if !diskUsageAlertSent {
        if o.diskAvailable < ONE_GB {
          notifications := notifications + [AlertNotification(
            LowDiskSpace(o.networkId, o.nodeName, DivTrunc(o.diskAvailable, BYTES_PER_MB)))];
          diskUsageAlertSent := true;
        }
      } else if ONE_GB < o.diskAvailable {
        diskUsageAlertSent := false;
      }
    }

    /** `Agent::clean_up`: runs once; every later call does nothing. */
    method CleanUp(reason: AgentCleanupReason)
      modifies this`closed, this`serviceLog, this`dbLog, this`wsCloses
      ensures closed
      ensures old(closed) ==>
        serviceLog == old(serviceLog) && dbLog == old(dbLog) && wsCloses == old(wsCloses)
      ensures !old(closed) ==>
        && serviceLog == old(serviceLog) + [RemoveAgent(id)]
        && dbLog == old(dbLog) + FinalSnapshot(state)
        && wsCloses == old(wsCloses) + [WsClose(CloseCodeFor(reason), CloseReason(reason))]
    {
      if closed {
        return;
      }
      closed := true;
      var isError := !reason.Success?;
      var errorMessage := CloseReason(reason);
      serviceLog := serviceLog + [RemoveAgent(id)];
      if state.Normal? {
        dbLog := dbLog + [UpdateAgentQueryResult(
          DefaultQueryResult().(name := state.name, status := NodeStatus.Error, address := state.address))];
      }
      wsCloses := wsCloses + [WsClose(if isError then WsCloseCode.Error else WsCloseCode.Normal, errorMessage)];
    }

    /**
      `Agent::run_thread`: a fresh agent runs, is cleaned up according to how
      the run ended, and is then dropped, which calls `clean_up(Unexpected)`
      once more. A run still polling has not ended and is not cleaned up.
     */
    static method RunThread(id: int, polls: seq<PollResponses>, addAgent: Result<(), string>)
      returns (agent: Agent, outcome: RunOutcome, ghost observed: seq<Observation>, ghost processed: nat)
      ensures fresh(agent) && agent.id == id
      ensures processed <= |polls|
      ensures outcome.Polling? ==> processed == |polls|
      ensures outcome.Stopped? ==> processed == 1
      ensures outcome.Failed? ==> processed == if Registers(State.Initializing, polls, addAgent) then |observed| + 2 else 1
      ensures outcome.Failed? ==> RunFailure(State.Initializing, polls, addAgent, |observed|, outcome.error)
      ensures !Registers(State.Initializing, polls, addAgent) ==> observed == []
      ensures |polls| > 0 ==> ObservedPolls(observed, polls[1..])
      ensures agent.notifications == AlertNotifications(Alerts(observed))
      ensures agent.state == UpdateRun(State.Initializing, polls[..processed]).state
      ensures outcome.Polling? ==> agent.dbLog == UpdateRun(State.Initializing, polls[..processed]).dbRequests
      ensures !outcome.Polling? ==>
        agent.dbLog == UpdateRun(State.Initializing, polls[..processed]).dbRequests + FinalSnapshot(agent.state)
      ensures outcome.Failed? && Registers(State.Initializing, polls, addAgent) ==>
        agent.state.Normal? && |agent.dbLog| > 0 && agent.dbLog[|agent.dbLog| - 1].row.status == NodeStatus.Error
      ensures outcome.Polling? ==> !agent.closed && agent.wsCloses == []
      ensures !outcome.Polling? ==> agent.closed && |agent.wsCloses| == 1
      ensures outcome.Stopped? ==>
        && agent.wsCloses == [WsClose(WsCloseCode.Error, CloseReason(AgentCleanupReason.AlreadyConnected))]
        && agent.serviceLog == [RemoveAgent(id)]
        && agent.state.Stop?
      ensures outcome.Polling? ==>
        agent.serviceLog == if Registers(State.Initializing, polls, addAgent) then [AddAgent(id)] else []
      ensures outcome.Failed? ==>
        && agent.wsCloses == [WsClose(WsCloseCode.Error, outcome.error)]
        && agent.serviceLog ==
             (if Registers(State.Initializing, polls, addAgent) then [AddAgent(id)] else []) + [RemoveAgent(id)]
    {
      agent := new Agent(id);
      outcome, observed, processed := agent.Run(polls, addAgent);
      ghost var trace := UpdateRun(State.Initializing, polls[..processed]);
      ghost var registered := Registers(State.Initializing, polls, addAgent);
      assert agent.state == trace.state && agent.dbLog == [] + trace.dbRequests;
      assert [] + trace.dbRequests == trace.dbRequests;
      assert agent.serviceLog == if registered then [AddAgent(id)] else [];
      assert outcome.Failed? && registered ==> agent.state.Normal?;
      assert agent.notifications == [] + AlertNotifications(Alerts(observed));
      assert [] + AlertNotifications(Alerts(observed)) == AlertNotifications(Alerts(observed));
      agent.Finish(outcome);
    }

    /** The cleanup after `run` returns, followed by the one `Drop` performs. */
    method Finish(outcome: RunOutcome)
      requires !closed
      modifies this`closed, this`serviceLog, this`dbLog, this`wsCloses
      ensures outcome.Polling? ==>
        !closed && serviceLog == old(serviceLog) && dbLog == old(dbLog) && wsCloses == old(wsCloses)
      ensures !outcome.Polling? ==>
        && closed
        && serviceLog == old(serviceLog) + [RemoveAgent(id)]
        && dbLog == old(dbLog) + FinalSnapshot(state)
        && wsCloses == old(wsCloses) + [WsClose(WsCloseCode.Error, CloseReason(CleanupReasonOf(outcome)))]
    {
      match outcome {
        case Stopped(_) => CleanUp(AgentCleanupReason.AlreadyConnected);
        case Failed(err) => CleanUp(AgentCleanupReason.Error(err));
        case Polling =>
      }
      if !outcome.Polling? {
        CleanUp(AgentCleanupReason.Unexpected);
      }
    }
  }
}
