/**
  The three edge-triggered detectors of the agent's polling loop: too few
  peers, a stalled best block, and low disk space. `Observe` is one pass of
  the loop body over the loop variables; `Detect` and `Alerts` run it over
  the successful polls of a session, in order.
 */
module AgentAlerts {
  import opened Prelude
  import opened CommonRpcTypes
  import opened Noti

  const LOW_PEER_LIMIT: nat := 5
  const LOW_PEER_ALERT_POLLS: nat := 6
  const STALL_ALERT_POLLS: nat := 3
  const ONE_GB: int := 1_000_000_000
  const BYTES_PER_MB: int := 1_000_000

  /** What the loop uses of one successful poll. */
  datatype Observation = Observation(
    networkId: string,
    nodeName: NodeName,
    numberOfPeers: nat,
    bestBlockNumber: Option<U64>,
    diskAvailable: I64)

  /**
    The loop variables: `count_of_no_enough_connections`,
    `previous_best_block_number`, `count_of_no_block_update` and
    `disk_usage_alert_sent`.
   */
  datatype Detectors = Detectors(
    lowPeerPolls: nat,
    bestBlockMark: U64,
    staleBlockPolls: nat,
    diskAlertSent: bool)

  const INITIAL_DETECTORS: Detectors := Detectors(0, 0, 0, false)

  datatype Alert =
    | NotEnoughConnections(networkId: string, nodeName: NodeName)
    | NoBlockUpdate(networkId: string, nodeName: NodeName)
    | LowDiskSpace(networkId: string, nodeName: NodeName, freeMb: int)

  datatype StepResult = StepResult(next: Detectors, alerts: seq<Alert>)

  /** The connectivity detector: the new length of the low-peer run, and its warning. */
  function ObserveConnectivity(lowPeerPolls: nat, o: Observation): (nat, seq<Alert>)
  {
    var polls := if o.numberOfPeers < LOW_PEER_LIMIT then lowPeerPolls + 1 else 0;
    (polls, if polls == LOW_PEER_ALERT_POLLS then [NotEnoughConnections(o.networkId, o.nodeName)] else [])
  }

  /** The stall detector: the new high-water mark and stale count, and its warning. */
  function ObserveStall(mark: U64, stale: nat, o: Observation): (U64, nat, seq<Alert>)
  {
    match o.bestBlockNumber
    case None => (mark, stale, [])
    case Some(b) =>
      var next := if b > mark then (b, 0) else (mark, stale + 1);
      (next.0, next.1, if next.1 == STALL_ALERT_POLLS then [NoBlockUpdate(o.networkId, o.nodeName)] else [])
  }

  /** The disk detector: the new latch, and its warning with the free space in whole MB. */
  function ObserveDisk(sent: bool, o: Observation): (bool, seq<Alert>)
  {
    if !sent then
      if o.diskAvailable < ONE_GB then (true, [LowDiskSpace(o.networkId, o.nodeName, DivTrunc(o.diskAvailable, BYTES_PER_MB))])
      else (false, [])
    else (!(ONE_GB < o.diskAvailable), [])
  }

  /** One pass of the detectors; alerts come in the order the loop sends them. */
  function Observe(d: Detectors, o: Observation): StepResult
  {
    var c := ObserveConnectivity(d.lowPeerPolls, o);
    var s := ObserveStall(d.bestBlockMark, d.staleBlockPolls, o);
    var k := ObserveDisk(d.diskAlertSent, o);
    StepResult(Detectors(c.0, s.0, s.1, k.0), c.1 + s.2 + k.1)
  }

  /** The loop variables after the given polls. */
  function Detect(os: seq<Observation>): Detectors
    decreases |os|
  {
    if os == [] then INITIAL_DETECTORS
    else Observe(Detect(os[..|os| - 1]), os[|os| - 1]).next
  }

  /** Every alert sent over the given polls, in order. */
  function Alerts(os: seq<Observation>): seq<Alert>
    decreases |os|
  {
    if os == [] then []
    else Alerts(os[..|os| - 1]) + Observe(Detect(os[..|os| - 1]), os[|os| - 1]).alerts
  }

  /** The alerts sent on poll `i`. */
  function AlertsAt(os: seq<Observation>, i: nat): seq<Alert>
    requires i < |os|
  {
    Observe(Detect(os[..i]), os[i]).alerts
  }

  predicate LowPeerAlerted(os: seq<Observation>, i: nat)
    requires i < |os|
  {
    NotEnoughConnections(os[i].networkId, os[i].nodeName) in AlertsAt(os, i)
  }

  predicate NoBlockUpdateAlerted(os: seq<Observation>, i: nat)
    requires i < |os|
  {
    NoBlockUpdate(os[i].networkId, os[i].nodeName) in AlertsAt(os, i)
  }

  predicate LowDiskAlerted(os: seq<Observation>, i: nat)
    requires i < |os|
  {
    LowDiskSpace(os[i].networkId, os[i].nodeName, DivTrunc(os[i].diskAvailable, BYTES_PER_MB)) in AlertsAt(os, i)
  }

  /** Poll `k` raises the best block above every block seen before it. */
  predicate IsBlockIncrease(os: seq<Observation>, k: nat)
    requires k < |os|
  {
    os[k].bestBlockNumber.Some? && os[k].bestBlockNumber.value > Detect(os[..k]).bestBlockMark
  }

  /**
    Poll `i` is the sixth of a run of polls with fewer than five peers: the
    six polls ending at `i` are all low, and the one before them is not.
   */
  predicate SixthLowPeerPoll(os: seq<Observation>, i: nat)
    requires i < |os|
  {
    && i + 1 >= LOW_PEER_ALERT_POLLS
    && (forall j :: i + 1 - LOW_PEER_ALERT_POLLS <= j <= i ==> os[j].numberOfPeers < LOW_PEER_LIMIT)
    && (i + 1 == LOW_PEER_ALERT_POLLS || os[i - LOW_PEER_ALERT_POLLS].numberOfPeers >= LOW_PEER_LIMIT)
  }

  lemma DetectSnoc(os: seq<Observation>, o: Observation)
    ensures Detect(os + [o]) == Observe(Detect(os), o).next
    ensures Alerts(os + [o]) == Alerts(os) + Observe(Detect(os), o).alerts
  {
    assert (os + [o])[..|os|] == os;
  }

  lemma StepAt(os: seq<Observation>, i: nat)
    requires i < |os|
    ensures Detect(os[..i + 1]) == Observe(Detect(os[..i]), os[i]).next
  {
    assert os[..i + 1][..i] == os[..i];
  }

  /**
    The low-peer counter is the length of the run of low-peer polls at the
    end of the session: all of the last that-many polls are low, and the one
    before them (if any) is not.
   */
  lemma {:induction false} LowPeerPollsCountTrailingRun(os: seq<Observation>)
    ensures Detect(os).lowPeerPolls <= |os|
    ensures forall j :: |os| - Detect(os).lowPeerPolls <= j < |os| ==> os[j].numberOfPeers < LOW_PEER_LIMIT
    ensures Detect(os).lowPeerPolls < |os| ==> os[|os| - Detect(os).lowPeerPolls - 1].numberOfPeers >= LOW_PEER_LIMIT
    decreases |os|
  {
    if os != [] {
      var p := os[..|os| - 1];
      LowPeerPollsCountTrailingRun(p);
      assert forall j :: 0 <= j < |p| ==> p[j] == os[j];
    }
  }

  /** The connectivity warning fires exactly on the sixth poll of a low-peer run. */
  lemma LowPeerAlertOnSixthPoll(os: seq<Observation>, i: nat)
    requires i < |os|
    ensures LowPeerAlerted(os, i) <==> SixthLowPeerPoll(os, i)
  {
    var q := os[..i + 1];
    StepAt(os, i);
    LowPeerPollsCountTrailingRun(q);
    var c := Detect(q).lowPeerPolls;
    assert LowPeerAlerted(os, i) <==> c == LOW_PEER_ALERT_POLLS;
    assert forall j :: 0 <= j <= i ==> q[j] == os[j];
  }

  /** Two connectivity warnings are always separated by a poll with enough peers. */
  lemma LowPeerAlertOncePerRun(os: seq<Observation>, i: nat, j: nat)
    requires i < j < |os|
    requires LowPeerAlerted(os, i) && LowPeerAlerted(os, j)
    ensures exists k :: i < k <= j && os[k].numberOfPeers >= LOW_PEER_LIMIT
  {
    LowPeerAlertOnSixthPoll(os, i);
    LowPeerAlertOnSixthPoll(os, j);
    SixthLowPeerPollsApart(os, i, j);
  }

  /** Two sixth polls of low-peer runs are separated by the poll that opened the later run. */
  lemma SixthLowPeerPollsApart(os: seq<Observation>, i: nat, j: nat)
    requires i < j < |os|
    requires SixthLowPeerPoll(os, i) && SixthLowPeerPoll(os, j)
    ensures exists k :: i < k <= j && os[k].numberOfPeers >= LOW_PEER_LIMIT
  {
    assert os[i].numberOfPeers < LOW_PEER_LIMIT;
    var k := j - LOW_PEER_ALERT_POLLS;
    assert i < k <= j && os[k].numberOfPeers >= LOW_PEER_LIMIT;
  }

  /** One pass of the stall detector. */
  lemma StallStep(d: Detectors, o: Observation)
    ensures o.bestBlockNumber.None? ==>
      Observe(d, o).next.bestBlockMark == d.bestBlockMark && Observe(d, o).next.staleBlockPolls == d.staleBlockPolls
    ensures o.bestBlockNumber.Some? && o.bestBlockNumber.value > d.bestBlockMark ==>
      Observe(d, o).next.bestBlockMark == o.bestBlockNumber.value && Observe(d, o).next.staleBlockPolls == 0
    ensures o.bestBlockNumber.Some? && o.bestBlockNumber.value <= d.bestBlockMark ==>
      Observe(d, o).next.bestBlockMark == d.bestBlockMark && Observe(d, o).next.staleBlockPolls == d.staleBlockPolls + 1
    ensures NoBlockUpdate(o.networkId, o.nodeName) in Observe(d, o).alerts <==>
      o.bestBlockNumber.Some? && Observe(d, o).next.staleBlockPolls == STALL_ALERT_POLLS
  {
  }

  /** The high-water mark is the largest best block seen, or 0 before any. */
  lemma {:induction false} BlockMarkIsHighWater(os: seq<Observation>)
    ensures forall j :: 0 <= j < |os| && os[j].bestBlockNumber.Some? ==>
      os[j].bestBlockNumber.value <= Detect(os).bestBlockMark
    ensures Detect(os).bestBlockMark == 0 ||
      exists j :: 0 <= j < |os| && os[j].bestBlockNumber == Some(Detect(os).bestBlockMark)
    decreases |os|
  {
    if os != [] {
      var p := os[..|os| - 1];
      var last := os[|os| - 1];
      BlockMarkIsHighWater(p);
      var before := Detect(p).bestBlockMark;
      var m := Detect(os).bestBlockMark;
      assert m == ObserveStall(before, Detect(p).staleBlockPolls, last).0;
      assert before <= m && (m == before || last.bestBlockNumber == Some(m));
      assert last.bestBlockNumber.Some? ==> last.bestBlockNumber.value <= m;
      assert forall j :: 0 <= j < |p| ==> p[j] == os[j];
    }
  }

  lemma {:induction false} BlockMarkNeverDecreases(os: seq<Observation>, i: nat, j: nat)
    requires i <= j <= |os|
    ensures Detect(os[..i]).bestBlockMark <= Detect(os[..j]).bestBlockMark
    decreases j - i
  {
    if i < j {
      StepAt(os, j - 1);
      BlockMarkNeverDecreases(os, i, j - 1);
    }
  }

  lemma {:induction false} StaleGrowsWithoutIncrease(os: seq<Observation>, i: nat, j: nat)
    requires i <= j <= |os|
    requires forall k :: i <= k < j ==> !IsBlockIncrease(os, k)
    ensures Detect(os[..i]).staleBlockPolls <= Detect(os[..j]).staleBlockPolls
    decreases j - i
  {
    if i < j {
      StepAt(os, j - 1);
      assert !IsBlockIncrease(os, j - 1);
      StaleGrowsWithoutIncrease(os, i, j - 1);
    }
  }

  /** Two stall warnings are always separated by a poll that raised the best block. */
  lemma NoBlockUpdateOncePerStall(os: seq<Observation>, i: nat, j: nat)
    requires i < j < |os|
    requires NoBlockUpdateAlerted(os, i) && NoBlockUpdateAlerted(os, j)
    ensures exists k :: i < k <= j && IsBlockIncrease(os, k)
  {
    StepAt(os, i);
    StepAt(os, j);
    StallStep(Detect(os[..i]), os[i]);
    StallStep(Detect(os[..j]), os[j]);
    if !IsBlockIncrease(os, j) {
      if forall k :: i + 1 <= k < j ==> !IsBlockIncrease(os, k) {
        StaleGrowsWithoutIncrease(os, i + 1, j);
        assert false;
      }
    }
  }

  /** One pass of the disk detector. */
  lemma DiskStep(d: Detectors, o: Observation)
    ensures LowDiskSpace(o.networkId, o.nodeName, DivTrunc(o.diskAvailable, BYTES_PER_MB)) in Observe(d, o).alerts <==>
      !d.diskAlertSent && o.diskAvailable < ONE_GB
    ensures !d.diskAlertSent ==> (Observe(d, o).next.diskAlertSent <==> o.diskAvailable < ONE_GB)
    ensures d.diskAlertSent ==> (!Observe(d, o).next.diskAlertSent <==> ONE_GB < o.diskAvailable)
  {
  }

  lemma {:induction false} DiskFlagStaysSet(os: seq<Observation>, i: nat, j: nat)
    requires i <= j <= |os|
    requires Detect(os[..i]).diskAlertSent
    requires forall k :: i <= k < j ==> os[k].diskAvailable <= ONE_GB
    ensures Detect(os[..j]).diskAlertSent
    decreases j - i
  {
    if i < j {
      StepAt(os, j - 1);
      DiskFlagStaysSet(os, i, j - 1);
    }
  }

  /** Two disk warnings are always separated by a poll with more than 1 GB free. */
  lemma LowDiskAlertOncePerCrossing(os: seq<Observation>, i: nat, j: nat)
    requires i < j < |os|
    requires LowDiskAlerted(os, i) && LowDiskAlerted(os, j)
    ensures exists k :: i < k < j && os[k].diskAvailable > ONE_GB
  {
    StepAt(os, i);
    DiskStep(Detect(os[..i]), os[i]);
    DiskStep(Detect(os[..j]), os[j]);
    if forall k :: i + 1 <= k < j ==> os[k].diskAvailable <= ONE_GB {
      DiskFlagStaysSet(os, i + 1, j);
      assert false;
    }
  }

  /** A well-connected node with plenty of disk, reporting the given best block. */
  function HealthyPoll(block: U64): Observation {
    Observation("net", "node", 10, Some(block), 2 * ONE_GB)
  }

  /**
    Best blocks 100, 100, 100, 105 from a fresh start: the high-water mark
    begins at 0, so the first 100 is an increase, the stale count goes
    0, 1, 2, 0, and no warning is sent.
   */
  lemma StallCountFromFreshStart()
    ensures Detect([HealthyPoll(100)]).staleBlockPolls == 0
    ensures Detect([HealthyPoll(100), HealthyPoll(100)]).staleBlockPolls == 1
    ensures Detect([HealthyPoll(100), HealthyPoll(100), HealthyPoll(100)]).staleBlockPolls == 2
    ensures Detect([HealthyPoll(100), HealthyPoll(100), HealthyPoll(100), HealthyPoll(105)]).staleBlockPolls == 0
    ensures Alerts([HealthyPoll(100), HealthyPoll(100), HealthyPoll(100), HealthyPoll(105)]) == []
  {
    var os := [HealthyPoll(100), HealthyPoll(100), HealthyPoll(100), HealthyPoll(105)];
    assert os[..3][..2] == os[..2] && os[..2][..1] == os[..1] && os[..1][..0] == [];
    assert os[..|os| - 1] == os[..3] && os[..3] == [HealthyPoll(100), HealthyPoll(100), HealthyPoll(100)];
    assert os[..2] == [HealthyPoll(100), HealthyPoll(100)] && os[..1] == [HealthyPoll(100)];
  }

  /** The text of each warning, as `noti.warn` receives it. */
  function AlertNotification(a: Alert): Notification
  {
    match a
    case NotEnoughConnections(networkId, nodeName) =>
      Warn(networkId, nodeName + " failed to establish enough connections in a minute.")
    case NoBlockUpdate(networkId, nodeName) =>
      Warn(networkId, nodeName + " no block update in 30 seconds.")
    case LowDiskSpace(networkId, nodeName, freeMb) =>
      Warn(networkId, nodeName + " has only " + IntToString(freeMb) + " MB free space.")
  }

  /** Every warning is a `warn` to the alert's network whose message opens with the node's name. */
  lemma AlertNotificationNamesNode(a: Alert)
    ensures AlertNotification(a).Warn?
    ensures AlertNotification(a).networkId == a.networkId
    ensures StartsWith(AlertNotification(a).message, a.nodeName)
  {
  }

  /** The notifications sent for the given alerts, one each, in order. */
  function AlertNotifications(alerts: seq<Alert>): seq<Notification>
    decreases |alerts|
  {
    if alerts == [] then []
    else AlertNotifications(alerts[..|alerts| - 1]) + [AlertNotification(alerts[|alerts| - 1])]
  }

  lemma AlertNotificationsSnoc(a: seq<Alert>, x: Alert)
    ensures AlertNotifications(a + [x]) == AlertNotifications(a) + [AlertNotification(x)]
  {
    assert (a + [x])[..|a|] == a;
  }

  lemma {:induction false} AlertNotificationsAppend(a: seq<Alert>, b: seq<Alert>)
    ensures AlertNotifications(a + b) == AlertNotifications(a) + AlertNotifications(b)
    decreases |b|
  {
    if b == [] {
      assert a + b == a;
    } else {
      var b' := b[..|b| - 1];
      var x := b[|b| - 1];
      assert b == b' + [x];
      assert a + b == (a + b') + [x];
      AlertNotificationsAppend(a, b');
      AlertNotificationsSnoc(a + b', x);
      AlertNotificationsSnoc(b', x);
      AppendAssociative(AlertNotifications(a), AlertNotifications(b'), [AlertNotification(x)]);
    }
  }

  /** One notification per alert, each the rendering of its alert. */
  lemma {:induction false} AlertNotificationsPointwise(alerts: seq<Alert>)
    ensures |AlertNotifications(alerts)| == |alerts|
    ensures forall k :: 0 <= k < |alerts| ==> AlertNotifications(alerts)[k] == AlertNotification(alerts[k])
    decreases |alerts|
  {
    if alerts != [] {
      var p := alerts[..|alerts| - 1];
      var sent := AlertNotifications(alerts);
      AlertNotificationsPointwise(p);
      assert sent == AlertNotifications(p) + [AlertNotification(alerts[|alerts| - 1])];
      forall k | 0 <= k < |alerts|
        ensures sent[k] == AlertNotification(alerts[k])
      {
        if k < |p| {
          assert p[k] == alerts[k];
        }
      }
    }
  }
}
