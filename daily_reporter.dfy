/**
  The daily report: once the UTC date changes, a plain-text summary of the
  database connection and of every known agent is sent as one `info`
  notification. The clock and the agent service are inputs: the dates the
  reporter sees and the agent states it is given.
 */
module DailyReporter {
  import opened Prelude
  import opened CommonRpcTypes
  import opened Noti

  const MB: int := 1_000_000
  const REPORT_TITLE: string := "Daily report"
  const RUNNING_LINE: string := "CodeChain Server is running"
  const AGENT_HEADER: string := "Agent: "

  /** A calendar day in UTC, as a day number. */
  type Date = int

  /** The most recent update result an agent keeps, as the report reads it. */
  datatype ReportedUpdateResult = ReportedUpdateResult(
    numberOfPeers: nat,
    bestBlockNumber: Option<U64>,
    diskUsage: Option<HardwareUsage>,
    diskUsages: Option<seq<HardwareUsage>>)

  /** An agent's state as the agent service reports it. */
  datatype AgentState =
    | Initializing
    | Normal(
        name: NodeName,
        address: Option<string>,
        status: NodeStatus,
        recentUpdateResult: Option<ReportedUpdateResult>,
        maximumMemoryUsage: Option<HardwareUsage>)
    | Stop(
        name: NodeName,
        address: Option<string>,
        status: NodeStatus,
        maximumMemoryUsage: Option<HardwareUsage>)

  datatype DiskUsage = Unknown | Known(total: int, perDisk: seq<int>)

  /** The second line of the report. `check` carries the `Debug` text of the error. */
  function DbStatusLine(check: Result<(), string>): (line: string)
    ensures line == "DB is connected" <==> check.Success?
  {
    match check
    case Success(_) => "DB is connected"
    case Failure(err) => "DB connection has an error : " + err
  }

  /** The sum of the free space of each disk, each first truncated to whole MB. */
  function MbTotal(usages: seq<HardwareUsage>): int
    decreases |usages|
  {
    if usages == [] then 0
    else MbTotal(usages[..|usages| - 1]) + DivTrunc(usages[|usages| - 1].available, MB)
  }

  /** The free space of the disks, in bytes. */
  function SumAvailable(usages: seq<HardwareUsage>): int
    decreases |usages|
  {
    if usages == [] then 0
    else SumAvailable(usages[..|usages| - 1]) + usages[|usages| - 1].available
  }

  function Availables(usages: seq<HardwareUsage>): (r: seq<int>)
    ensures |r| == |usages|
    ensures forall k :: 0 <= k < |usages| ==> r[k] == usages[k].available
  {
    seq(|usages|, k requires 0 <= k < |usages| => usages[k].available)
  }

  /** The disk figure of a report: the per-disk list wins over the single figure. */
  function DiskUsageOf(u: ReportedUpdateResult): (d: DiskUsage)
    ensures d.Unknown? <==> u.diskUsage.None? && u.diskUsages.None?
    ensures u.diskUsages.Some? ==> d == Known(MbTotal(u.diskUsages.value), Availables(u.diskUsages.value))
    ensures u.diskUsages.None? && u.diskUsage.Some? ==>
      d == Known(DivTrunc(u.diskUsage.value.available, MB), [u.diskUsage.value.available])
  {
    match (u.diskUsage, u.diskUsages)
    case (_, Some(usages)) => Known(MbTotal(usages), Availables(usages))
    case (Some(usage), None) => Known(DivTrunc(usage.available, MB), [usage.available])
    case (None, None) => Unknown
  }

  function IntStrings(xs: seq<int>): (r: seq<string>)
    ensures |r| == |xs|
  {
    seq(|xs|, k requires 0 <= k < |xs| => IntToString(xs[k]))
  }

  function DiskLine(d: DiskUsage): string
  {
    match d
    case Unknown => "  available disk: Unknown"
    case Known(total, perDisk) =>
      if |perDisk| == 1 then "  available disk: " + IntToString(total) + " MB"
      else "  available disk: " + IntToString(total) + "(" + Join(IntStrings(perDisk), " + ") + ") MB"
  }

  function MemoryLine(m: HardwareUsage): string
  {
    "  memory usage: " + IntToString(DivTrunc(m.total - m.available, MB)) + " MB / "
    + IntToString(DivTrunc(m.total, MB)) + " MB"
  }

  function MemoryLines(m: Option<HardwareUsage>): seq<string>
  {
    if m.Some? then [MemoryLine(m.value)] else []
  }

  /** The three lines every known agent gets: name, `Debug` of its address, `Debug` of its status. */
  function IdentityLines(name: NodeName, address: Option<string>, status: NodeStatus): seq<string>
  {
    [AGENT_HEADER + name,
     "  address: " + DebugOption(address, (a: string) => a),
     "  status: " + DebugStatus(status)]
  }

  function UpdateLines(u: ReportedUpdateResult): seq<string>
  {
    ["  peer count: " + IntToString(u.numberOfPeers),
     "  best block number: " + DebugOption(u.bestBlockNumber, (b: U64) => IntToString(b)),
     DiskLine(DiskUsageOf(u))]
  }

  /** The lines one agent contributes to the report. */
  function AgentLines(s: AgentState): seq<string>
  {
    match s
    case Initializing => []
    case Normal(name, address, status, recent, memory) =>
      IdentityLines(name, address, status)
      + (if recent.Some? then UpdateLines(recent.value) else [])
      + MemoryLines(memory)
    case Stop(name, address, status, memory) =>
      IdentityLines(name, address, status) + MemoryLines(memory)
  }

  function AllAgentLines(states: seq<AgentState>): seq<string>
    decreases |states|
  {
    if states == [] then []
    else AllAgentLines(states[..|states| - 1]) + AgentLines(states[|states| - 1])
  }

  /** The message lines of a report, in order; they are joined with newlines. */
  function ReportLines(dbStatus: string, states: seq<AgentState>): seq<string>
  {
    [RUNNING_LINE, dbStatus] + AllAgentLines(states)
  }

  /**
    `send_daily_report`: checks the database, reads the agents' states,
    and sends the report. Resetting the agents' maximum memory usages
    happens after the states are read and does not change the report.
   */
  method SendDailyReport(networkId: string, check: Result<(), string>, agentStates: seq<AgentState>)
    returns (messages: seq<string>, notification: Notification)
    ensures messages == ReportLines(DbStatusLine(check), agentStates)
    ensures notification == Info(networkId, REPORT_TITLE, Join(messages, "\n"))
  {
    var dbStatus;
    match check {
      case Success(_) => dbStatus := "DB is connected";
      case Failure(err) => dbStatus := "DB connection has an error : " + err;
    }
    messages := [RUNNING_LINE, dbStatus];

    for i := 0 to |agentStates|
      invariant messages == ReportLines(dbStatus, agentStates[..i])
    {
      assert agentStates[..i + 1][..i] == agentStates[..i];
      AppendAssociative([RUNNING_LINE, dbStatus], AllAgentLines(agentStates[..i]), AgentLines(agentStates[i]));
      messages := ReportAgent(messages, agentStates[i]);
    }
    assert agentStates[..|agentStates|] == agentStates;
    notification := Info(networkId, REPORT_TITLE, Join(messages, "\n"));
  }

  /** The body of the report's loop over the agents: push one agent's lines. */
  method ReportAgent(before: seq<string>, agentState: AgentState) returns (messages: seq<string>)
    ensures messages == before + AgentLines(agentState)
  {
    messages := before;
    match agentState {
      case Initializing =>
        assert AgentLines(agentState) == [];
      case Normal(name, address, status, recentUpdateResult, maximumMemoryUsage) =>
        messages := messages + [AGENT_HEADER + name];
        messages := messages + ["  address: " + DebugOption(address, (a: string) => a)];
        messages := messages + ["  status: " + DebugStatus(status)];
        assert messages == before + IdentityLines(name, address, status);
        ghost var afterIdentity := messages;
        if recentUpdateResult.Some? {
          var updateResult := recentUpdateResult.value;
          var diskUsage;
          if updateResult.diskUsages.Some? {
            var usages := updateResult.diskUsages.value;
            diskUsage := Known(MbTotal(usages), Availables(usages));
          } else if updateResult.diskUsage.Some? {
            var usage := updateResult.diskUsage.value;
            diskUsage := Known(DivTrunc(usage.available, MB), [usage.available]);
          } else {
            diskUsage := Unknown;
          }
          assert diskUsage == DiskUsageOf(updateResult);
          messages := messages + ["  peer count: " + IntToString(updateResult.numberOfPeers)];
          messages := messages + ["  best block number: " + DebugOption(updateResult.bestBlockNumber, (b: U64) => IntToString(b))];
          messages := messages + [DiskLine(diskUsage)];
          assert messages == afterIdentity + UpdateLines(updateResult);
        }
        ghost var recent := if recentUpdateResult.Some? then UpdateLines(recentUpdateResult.value) else [];
        assert messages == afterIdentity + recent;
        ghost var afterUpdate := messages;
        if maximumMemoryUsage.Some? {
          messages := messages + [MemoryLine(maximumMemoryUsage.value)];
        }
        assert messages == afterUpdate + MemoryLines(maximumMemoryUsage);
        AppendAssociative(before, IdentityLines(name, address, status), recent);
        AppendAssociative(before, IdentityLines(name, address, status) + recent, MemoryLines(maximumMemoryUsage));
      case Stop(name, address, status, maximumMemoryUsage) =>
        messages := messages + [AGENT_HEADER + name];
        messages := messages + ["  address: " + DebugOption(address, (a: string) => a)];
        messages := messages + ["  status: " + DebugStatus(status)];
        assert messages == before + IdentityLines(name, address, status);
        ghost var afterIdentity := messages;
        if maximumMemoryUsage.Some? {
          messages := messages + [MemoryLine(maximumMemoryUsage.value)];
        }
        assert messages == afterIdentity + MemoryLines(maximumMemoryUsage);
        AppendAssociative(before, IdentityLines(name, address, status), MemoryLines(maximumMemoryUsage));
    }
  }

  /**
    The loop of `start`: on each wake-up the reporter reads today's date and
    sends a report when it differs from the date of the previous wake-up.
    `reported[i]` says whether the `i`-th wake-up sent one.
   */
  method WatchDates(startDate: Date, dates: seq<Date>) returns (reported: seq<bool>, currentDate: Date)
    ensures |reported| == |dates|
    ensures forall i :: 0 <= i < |dates| ==> reported[i] == (dates[i] != PreviousDate(startDate, dates, i))
    ensures currentDate == if dates == [] then startDate else dates[|dates| - 1]
  {
    currentDate := startDate;
    reported := [];
    for i := 0 to |dates|
      invariant |reported| == i
      invariant forall k :: 0 <= k < i ==> reported[k] == (dates[k] != PreviousDate(startDate, dates, k))
      invariant currentDate == PreviousDate(startDate, dates, i)
    {
      var newDate := dates[i];
      reported := reported + [newDate != currentDate];
      currentDate := newDate;
    }
  }

  /** The date the reporter remembers before its `i`-th wake-up. */
  function PreviousDate(startDate: Date, dates: seq<Date>, i: nat): Date
    requires i <= |dates|
  {
    if i == 0 then startDate else dates[i - 1]
  }

  predicate NonDecreasing(startDate: Date, dates: seq<Date>) {
    && (dates != [] ==> startDate <= dates[0])
    && forall i :: 0 < i < |dates| ==> dates[i - 1] <= dates[i]
  }

  /** While the clock only moves forward, two reports are never sent on the same day. */
  lemma OneReportPerDay(startDate: Date, dates: seq<Date>, i: nat, j: nat)
    requires NonDecreasing(startDate, dates)
    requires i < j < |dates|
    requires dates[i] != PreviousDate(startDate, dates, i) && dates[j] != PreviousDate(startDate, dates, j)
    ensures dates[i] < dates[j]
  {
    DatesMonotone(startDate, dates, i, j - 1);
  }

  lemma {:induction false} DatesMonotone(startDate: Date, dates: seq<Date>, i: nat, j: nat)
    requires NonDecreasing(startDate, dates)
    requires i <= j < |dates|
    ensures dates[i] <= dates[j]
    decreases j - i
  {
    if i < j {
      DatesMonotone(startDate, dates, i, j - 1);
    }
  }

  /** Wake-up `k` is the first one on date `d`. */
  predicate FirstWakeUpOn(dates: seq<Date>, d: Date, k: nat) {
    && k < |dates| && dates[k] == d
    && forall j :: 0 <= j < k ==> dates[j] != d
  }

  /**
    Every day other than the starting one that the reporter wakes up on
    has a first wake-up, and that wake-up sends a report.
   */
  lemma EveryNewDayReported(startDate: Date, dates: seq<Date>, i: nat)
    requires i < |dates| && dates[i] != startDate
    ensures exists k: nat :: k <= i && FirstWakeUpOn(dates, dates[i], k)
    ensures forall k: nat :: FirstWakeUpOn(dates, dates[i], k) ==> dates[k] != PreviousDate(startDate, dates, k)
  {
    var k := 0;
    while dates[k] != dates[i]
      invariant k <= i
      invariant forall j :: 0 <= j < k ==> dates[j] != dates[i]
      decreases i - k
    {
      k := k + 1;
    }
    assert FirstWakeUpOn(dates, dates[i], k);
    forall k': nat | FirstWakeUpOn(dates, dates[i], k')
      ensures dates[k'] != PreviousDate(startDate, dates, k')
    {
      if k' > 0 {
        assert dates[k' - 1] != dates[i];
      }
    }
  }

  predicate IsAgentHeader(line: string) {
    StartsWith(line, AGENT_HEADER)
  }

  function CountAgentHeaders(lines: seq<string>): nat
    decreases |lines|
  {
    if lines == [] then 0
    else CountAgentHeaders(lines[..|lines| - 1]) + (if IsAgentHeader(lines[|lines| - 1]) then 1 else 0)
  }

  function CountKnownAgents(states: seq<AgentState>): nat
    decreases |states|
  {
    if states == [] then 0
    else CountKnownAgents(states[..|states| - 1]) + (if states[|states| - 1].Initializing? then 0 else 1)
  }

  lemma {:induction false} CountAgentHeadersAppend(a: seq<string>, b: seq<string>)
    ensures CountAgentHeaders(a + b) == CountAgentHeaders(a) + CountAgentHeaders(b)
    decreases |b|
  {
    if b == [] {
      assert a + b == a;
    } else {
      var b' := b[..|b| - 1];
      assert a + b == (a + b') + [b[|b| - 1]];
      assert (a + b)[..|a + b| - 1] == a + b';
      CountAgentHeadersAppend(a, b');
    }
  }

  /** A line that opens with two spaces: every line of an agent's block but its first. */
  predicate Indented(line: string) {
    |line| >= 2 && line[..2] == "  "
  }

  predicate AllIndented(lines: seq<string>) {
    forall k :: 0 <= k < |lines| ==> Indented(lines[k])
  }

  lemma IndentedIsNotHeader(line: string)
    requires Indented(line)
    ensures !IsAgentHeader(line)
  {
    assert line[0] == line[..2][0] == ' ';
    assert AGENT_HEADER[0] == 'A';
  }

  lemma IndentedConcat(a: string, b: string)
    requires Indented(a)
    ensures Indented(a + b)
  {
    assert (a + b)[..2] == a[..2];
  }

  lemma AllIndentedConcat(a: seq<string>, b: seq<string>)
    requires AllIndented(a) && AllIndented(b)
    ensures AllIndented(a + b)
  {
  }

  lemma {:induction false} IndentedLinesHaveNoHeader(lines: seq<string>)
    requires AllIndented(lines)
    ensures CountAgentHeaders(lines) == 0
    decreases |lines|
  {
    if lines != [] {
      IndentedIsNotHeader(lines[|lines| - 1]);
      IndentedLinesHaveNoHeader(lines[..|lines| - 1]);
    }
  }

  lemma UpdateLinesIndented(u: ReportedUpdateResult)
    ensures AllIndented(UpdateLines(u))
  {
    IndentedConcat("  peer count: ", IntToString(u.numberOfPeers));
    IndentedConcat("  best block number: ", DebugOption(u.bestBlockNumber, (b: U64) => IntToString(b)));
    var d := DiskUsageOf(u);
    match d {
      case Unknown =>
        assert Indented("  available disk: Unknown");
      case Known(total, perDisk) =>
        var a := "  available disk: ";
        var t := IntToString(total);
        IndentedConcat(a, t);
        if |perDisk| == 1 {
          IndentedConcat(a + t, " MB");
        } else {
          IndentedConcat(a + t, "(");
          IndentedConcat(a + t + "(", Join(IntStrings(perDisk), " + "));
          IndentedConcat(a + t + "(" + Join(IntStrings(perDisk), " + "), ") MB");
        }
    }
  }

  lemma MemoryLinesIndented(m: Option<HardwareUsage>)
    ensures AllIndented(MemoryLines(m))
  {
    if m.Some? {
      var v := m.value;
      var a := "  memory usage: ";
      var x := IntToString(DivTrunc(v.total - v.available, MB));
      var y := IntToString(DivTrunc(v.total, MB));
      IndentedConcat(a, x);
      IndentedConcat(a + x, " MB / ");
      IndentedConcat(a + x + " MB / ", y);
      IndentedConcat(a + x + " MB / " + y, " MB");
    }
  }

  /** Every line after an agent's first one is indented. */
  lemma AgentDetailLinesIndented(s: AgentState)
    requires !s.Initializing?
    ensures |AgentLines(s)| >= 1 && AllIndented(AgentLines(s)[1..])
  {
    var identity := IdentityLines(s.name, s.address, s.status);
    IndentedConcat("  address: ", DebugOption(s.address, (a: string) => a));
    IndentedConcat("  status: ", DebugStatus(s.status));
    assert AllIndented(identity[1..]);
    var recent := if s.Normal? && s.recentUpdateResult.Some? then UpdateLines(s.recentUpdateResult.value) else [];
    if s.Normal? && s.recentUpdateResult.Some? {
      UpdateLinesIndented(s.recentUpdateResult.value);
    }
    MemoryLinesIndented(s.maximumMemoryUsage);
    AllIndentedConcat(identity[1..], recent);
    AllIndentedConcat(identity[1..] + recent, MemoryLines(s.maximumMemoryUsage));
    assert AgentLines(s) == identity + recent + MemoryLines(s.maximumMemoryUsage);
    assert AgentLines(s)[1..] == identity[1..] + recent + MemoryLines(s.maximumMemoryUsage);
  }

  /** A known agent's block opens with its one header line, naming it; an initializing agent has no block. */
  lemma AgentLinesHeader(s: AgentState)
    ensures s.Initializing? <==> AgentLines(s) == []
    ensures !s.Initializing? ==> AgentLines(s)[0] == AGENT_HEADER + s.name
    ensures CountAgentHeaders(AgentLines(s)) == if s.Initializing? then 0 else 1
  {
    var lines := AgentLines(s);
    if !s.Initializing? {
      AgentDetailLinesIndented(s);
      IndentedLinesHaveNoHeader(lines[1..]);
      assert lines == [lines[0]] + lines[1..];
      CountAgentHeadersAppend([lines[0]], lines[1..]);
      assert IsAgentHeader(lines[0]);
    }
  }

  /** The report names each agent that has finished initializing once, and no other. */
  lemma {:induction false} ReportCountsKnownAgents(dbStatus: string, states: seq<AgentState>)
    requires !IsAgentHeader(dbStatus)
    ensures CountAgentHeaders(ReportLines(dbStatus, states)) == CountKnownAgents(states)
  {
    AllAgentLinesCountKnownAgents(states);
    CountAgentHeadersAppend([RUNNING_LINE, dbStatus], AllAgentLines(states));
    assert !IsAgentHeader(RUNNING_LINE) by {
      assert RUNNING_LINE[0] != AGENT_HEADER[0];
    }
    assert [RUNNING_LINE, dbStatus][..1] == [RUNNING_LINE];
    assert [RUNNING_LINE][..0] == [];
    assert CountAgentHeaders([RUNNING_LINE]) == 0;
  }

  lemma {:induction false} AllAgentLinesCountKnownAgents(states: seq<AgentState>)
    ensures CountAgentHeaders(AllAgentLines(states)) == CountKnownAgents(states)
    decreases |states|
  {
    if states != [] {
      var p := states[..|states| - 1];
      AllAgentLinesCountKnownAgents(p);
      CountAgentHeadersAppend(AllAgentLines(p), AgentLines(states[|states| - 1]));
      AgentLinesHeader(states[|states| - 1]);
    }
  }

  /** Neither status line of the database is an agent header. */
  lemma DbStatusIsNotHeader(check: Result<(), string>)
    ensures !IsAgentHeader(DbStatusLine(check))
  {
    assert DbStatusLine(check)[0] == 'D';
  }

  /** The report that is sent holds one agent header per agent that is not initializing. */
  lemma SentReportCountsKnownAgents(check: Result<(), string>, states: seq<AgentState>)
    ensures CountAgentHeaders(ReportLines(DbStatusLine(check), states)) == CountKnownAgents(states)
  {
    DbStatusIsNotHeader(check);
    ReportCountsKnownAgents(DbStatusLine(check), states);
  }

  /** Agents still initializing leave no trace in the report. */
  lemma {:induction false} InitializingAgentsSkipped(states: seq<AgentState>, s: AgentState)
    requires s.Initializing?
    ensures AllAgentLines(states + [s]) == AllAgentLines(states)
  {
    assert (states + [s])[..|states|] == states;
  }

  /**
    A stopped agent's block has its three identity lines and, when known,
    its memory line: never peers, blocks or disk.
   */
  lemma StoppedAgentLines(s: AgentState)
    requires s.Stop?
    ensures |AgentLines(s)| == 3 + (if s.maximumMemoryUsage.Some? then 1 else 0)
    ensures AgentLines(s)[..3] == IdentityLines(s.name, s.address, s.status)
    ensures AgentLines(s)[3..] == MemoryLines(s.maximumMemoryUsage)
  {
  }

  /** The line kinds a report line can start with that only running agents get. */
  predicate IsChainDataLine(line: string) {
    StartsWith(line, "  peer count: ") || StartsWith(line, "  best block number: ")
    || StartsWith(line, "  available disk: ")
  }

  /** A line whose third and fourth characters match no chain-data line is not one. */
  lemma NotChainDataLine(line: string)
    requires |line| >= 4
    requires line[2] == 'e' || line[2] == 's' || line[2] == 'm' || (line[2] == 'a' && line[3] == 'd')
    ensures !IsChainDataLine(line)
  {
    assert |line| < 14 || line[..14][2] == line[2];
    assert |line| < 21 || line[..21][2] == line[2];
    assert |line| < 18 || (line[..18][2] == line[2] && line[..18][3] == line[3]);
  }

  /** No line of a stopped agent's block is a peer-count, best-block or disk line. */
  lemma StoppedAgentReportsNoChainData(s: AgentState)
    requires s.Stop?
    ensures forall k :: 0 <= k < |AgentLines(s)| ==> !IsChainDataLine(AgentLines(s)[k])
  {
    var lines := AgentLines(s);
    StoppedAgentLines(s);
    forall k | 0 <= k < |lines|
      ensures !IsChainDataLine(lines[k])
    {
      if k < 3 {
        assert lines[k] == IdentityLines(s.name, s.address, s.status)[k];
      } else {
        assert lines[k] == MemoryLine(s.maximumMemoryUsage.value);
      }
      NotChainDataLine(lines[k]);
    }
  }

  /** Every known agent's block opens with its name, address and status lines, in that order. */
  lemma KnownAgentIdentityFirst(s: AgentState)
    requires !s.Initializing?
    ensures |AgentLines(s)| >= 3
    ensures AgentLines(s)[..3] == IdentityLines(s.name, s.address, s.status)
    ensures StartsWith(AgentLines(s)[0], AGENT_HEADER)
    ensures StartsWith(AgentLines(s)[1], "  address: ") && StartsWith(AgentLines(s)[2], "  status: ")
  {
    var id := IdentityLines(s.name, s.address, s.status);
    assert AgentLines(s)[..3] == id;
    assert id[0][..|AGENT_HEADER|] == AGENT_HEADER;
    assert id[1][..11] == "  address: ";
    assert id[2][..10] == "  status: ";
  }

  /** A running agent with an update result reports its peers, best block and disk, in that order. */
  lemma NormalAgentLines(s: AgentState)
    requires s.Normal? && s.recentUpdateResult.Some?
    ensures |AgentLines(s)| == 6 + (if s.maximumMemoryUsage.Some? then 1 else 0)
    ensures AgentLines(s)[3] == "  peer count: " + IntToString(s.recentUpdateResult.value.numberOfPeers)
    ensures AgentLines(s)[5] == DiskLine(DiskUsageOf(s.recentUpdateResult.value))
  {
  }

  /**
    With non-negative free space, truncating each disk to whole MB loses
    less than one MB per disk against the exact total.
   */
  lemma {:induction false} MbTotalRounding(usages: seq<HardwareUsage>)
    requires forall k :: 0 <= k < |usages| ==> usages[k].available >= 0
    ensures MbTotal(usages) * MB <= SumAvailable(usages)
    ensures SumAvailable(usages) - MbTotal(usages) * MB <= |usages| * (MB - 1)
    decreases |usages|
  {
    if usages != [] {
      var p := usages[..|usages| - 1];
      assert forall k :: 0 <= k < |p| ==> p[k] == usages[k];
      MbTotalRounding(p);
    }
  }

  /** Two disks of 1.5 MB free each are reported as 2 MB in total, not 3. */
  lemma PerDiskTruncation()
    ensures MbTotal([HardwareUsage(0, 1_500_000), HardwareUsage(0, 1_500_000)]) == 2
    ensures DivTrunc(SumAvailable([HardwareUsage(0, 1_500_000), HardwareUsage(0, 1_500_000)]), MB) == 3
  {
    var u := [HardwareUsage(0, 1_500_000), HardwareUsage(0, 1_500_000)];
    assert u[..1][..0] == [];
    assert u[..|u| - 1] == u[..1];
  }

  /** An empty per-disk list still wins over the single figure and prints an empty list. */
  lemma EmptyDiskListLine(u: ReportedUpdateResult)
    requires u.diskUsages == Some([])
    ensures DiskLine(DiskUsageOf(u)) == "  available disk: 0() MB"
  {
    assert IntToString(0) == "0";
  }

  /** A single disk is printed without the per-disk list. */
  lemma SingleDiskLine(u: ReportedUpdateResult)
    requires u.diskUsages.None? && u.diskUsage.Some?
    ensures DiskLine(DiskUsageOf(u)) == "  available disk: " + IntToString(DivTrunc(u.diskUsage.value.available, MB)) + " MB"
  {
  }

  /**
    With two disks, the total is in whole MB but the parenthesised list
    holds each disk's free space in bytes, under the same "MB" label.
   */
  lemma TwoDiskLine(u: ReportedUpdateResult, a: HardwareUsage, b: HardwareUsage)
    requires u.diskUsages == Some([a, b])
    ensures DiskLine(DiskUsageOf(u)) ==
      "  available disk: " + IntToString(DivTrunc(a.available, MB) + DivTrunc(b.available, MB))
      + "(" + IntToString(a.available) + " + " + IntToString(b.available) + ") MB"
  {
    var usages := [a, b];
    var total := DivTrunc(a.available, MB) + DivTrunc(b.available, MB);
    var first, second := IntToString(a.available), IntToString(b.available);
    MbTotalTwo(a, b);
    assert Availables(usages) == [a.available, b.available];
    assert DiskUsageOf(u) == Known(total, [a.available, b.available]);
    var parts := IntStrings([a.available, b.available]);
    assert parts == [first, second];
    assert parts[1..] == [second];
    var joined := Join(parts, " + ");
    assert joined == first + " + " + second;
    var head := "  available disk: " + IntToString(total) + "(";
    assert DiskLine(DiskUsageOf(u)) == head + joined + ") MB";
    AppendAssociative(head, first + " + ", second);
    AppendAssociative(head, first, " + ");
  }

  lemma MbTotalTwo(a: HardwareUsage, b: HardwareUsage)
    ensures MbTotal([a, b]) == DivTrunc(a.available, MB) + DivTrunc(b.available, MB)
  {
    assert [a, b][..1] == [a] && [a][..0] == [];
    assert MbTotal([a]) == DivTrunc(a.available, MB);
  }

  /** The memory line never reports more used than total while the free figure is within the total. */
  lemma MemoryUsedWithinTotal(m: HardwareUsage)
    requires 0 <= m.available <= m.total
    ensures 0 <= DivTrunc(m.total - m.available, MB) <= DivTrunc(m.total, MB)
  {
  }
}
