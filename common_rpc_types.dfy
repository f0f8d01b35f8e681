/**
  The value types shared by the server's RPC surface: node status, hardware
  usage, block identifiers, versions, logs, and the graph period with its
  string serialisation.
 */
module CommonRpcTypes {
  import opened Prelude

  type NodeName = string

  datatype NodeStatus = Starting | Run | Stop | Updating | Error | UFO

  /** `NodeStatus::default()`. */
  function DefaultNodeStatus(): (s: NodeStatus)
    ensures s == NodeStatus.Stop
  {
    NodeStatus.Stop
  }

  /** The derived `Debug` of a status prints the variant's name. */
  function DebugStatus(s: NodeStatus): (r: string)
    ensures |r| > 0
  {
    match s
    case Starting => "Starting"
    case Run => "Run"
    case Stop => "Stop"
    case Updating => "Updating"
    case Error => "Error"
    case UFO => "UFO"
  }

  /** An IP address, kept as its textual form. */
  type IpAddr = string

  /** A whitelist or a blacklist of a node. */
  datatype WhiteList = WhiteList(list: seq<(IpAddr, string)>, enabled: bool)

  /** Usage of one resource, in bytes. The floating-point `percentage_used` is not modelled. */
  datatype HardwareUsage = HardwareUsage(total: I64, available: I64)

  /** The hardware snapshot of a node; the `f64` CPU loads are not modelled. */
  datatype HardwareInfo = HardwareInfo(diskUsage: HardwareUsage, memoryUsage: HardwareUsage)

  /** A block identifier; the 256-bit hash is kept as an opaque string. */
  datatype BlockId = BlockId(blockNumber: I64, hash: string)

  datatype NodeVersion = NodeVersion(version: string, hash: string, binaryChecksum: string)

  datatype StructuredLog = StructuredLog(level: string, target: string, message: string, timestamp: string, threadName: string)

  /** A pending transaction is a JSON value, kept as an opaque string. */
  type PendingTransaction = string

  datatype GraphPeriod = Minutes5 | Hour | Day

  /** The strings the period deserialiser accepts. */
  predicate IsPeriodString(s: string) {
    s == "minutes5" || s == "hour" || s == "day"
  }

  /** `impl Serialize for GraphPeriod`. */
  function SerializePeriod(p: GraphPeriod): (s: string)
    ensures IsPeriodString(s)
  {
    match p
    case Minutes5 => "minutes5"
    case Hour => "hour"
    case Day => "day"
  }

  /**
    `impl Deserialize for GraphPeriod`, on the string it has already read.
    Any other string reaches `unreachable!()`, a panic; the requires clause
    says that callers must not send one.
   */
  function DeserializePeriod(s: string): (p: GraphPeriod)
    requires IsPeriodString(s)
    ensures SerializePeriod(p) == s
  {
    match s
    case "minutes5" => Minutes5
    case "hour" => Hour
    case "day" => Day
  }

  lemma PeriodRoundTrip(p: GraphPeriod)
    ensures DeserializePeriod(SerializePeriod(p)) == p
  {
  }

  lemma SerializePeriodInjective(p: GraphPeriod, q: GraphPeriod)
    ensures SerializePeriod(p) == SerializePeriod(q) ==> p == q
  {
  }

  /** The deserialiser's domain is exactly the set of serialised periods. */
  lemma PeriodStringsAreSerializations(s: string)
    ensures IsPeriodString(s) <==> exists p :: SerializePeriod(p) == s
  {
    if IsPeriodString(s) {
      assert SerializePeriod(DeserializePeriod(s)) == s;
    }
  }
}
