/**
  The disk figures the client collects: one entry per disk, each entry
  holding the running totals of total and available space over that disk
  and all disks before it. The disk list is an input; the floating-point
  `percentage_used` is not modelled.
 */
module PrintDiskUsage {
  import opened Prelude

  /** What the system reports for one disk, in bytes. */
  datatype Disk = Disk(totalSpace: U64, availableSpace: U64)

  /** One entry of the result, in bytes. */
  datatype HardwareUsage = HardwareUsage(total: int, available: int)

  /** The total space of the given disks, each read as `i64`. */
  function TotalSpace(disks: seq<Disk>): int
    decreases |disks|
  {
    if disks == [] then 0 else TotalSpace(disks[..|disks| - 1]) + AsI64(disks[|disks| - 1].totalSpace)
  }

  /** The available space of the given disks, each read as `i64`. */
  function AvailableSpace(disks: seq<Disk>): int
    decreases |disks|
  {
    if disks == [] then 0 else AvailableSpace(disks[..|disks| - 1]) + AsI64(disks[|disks| - 1].availableSpace)
  }

  /** `get_disk_usage`, after the disk list has been refreshed. */
  method GetDiskUsage(disks: seq<Disk>) returns (result: seq<HardwareUsage>)
    ensures |result| == |disks|
    ensures forall i :: 0 <= i < |disks| ==>
      result[i] == HardwareUsage(TotalSpace(disks[..i + 1]), AvailableSpace(disks[..i + 1]))
  {
    var total := 0;
    var available := 0;
    result := [];
    for i := 0 to |disks|
      invariant |result| == i
      invariant total == TotalSpace(disks[..i]) && available == AvailableSpace(disks[..i])
      invariant forall k :: 0 <= k < i ==>
        result[k] == HardwareUsage(TotalSpace(disks[..k + 1]), AvailableSpace(disks[..k + 1]))
    {
      assert disks[..i + 1][..i] == disks[..i];
      total := total + AsI64(disks[i].totalSpace);
      available := available + AsI64(disks[i].availableSpace);
      result := result + [HardwareUsage(total, available)];
    }
  }

  /** The last entry holds the totals over every disk. */
  lemma LastEntryIsTotal(disks: seq<Disk>, result: seq<HardwareUsage>)
    requires |disks| > 0 && |result| == |disks|
    requires forall i :: 0 <= i < |disks| ==>
      result[i] == HardwareUsage(TotalSpace(disks[..i + 1]), AvailableSpace(disks[..i + 1]))
    ensures result[|result| - 1] == HardwareUsage(TotalSpace(disks), AvailableSpace(disks))
  {
    assert disks[..|disks|] == disks;
  }

  /** Every disk fits in `i64`, so no figure is read as negative. */
  predicate FitsI64(disks: seq<Disk>) {
    forall k :: 0 <= k < |disks| ==> disks[k].totalSpace <= I64_MAX && disks[k].availableSpace <= I64_MAX
  }

  /** With disks that fit in `i64`, the running totals never decrease along the list. */
  lemma {:induction false} RunningTotalsNonDecreasing(disks: seq<Disk>, i: nat, j: nat)
    requires FitsI64(disks)
    requires i <= j <= |disks|
    ensures TotalSpace(disks[..i]) <= TotalSpace(disks[..j])
    ensures AvailableSpace(disks[..i]) <= AvailableSpace(disks[..j])
    decreases j - i
  {
    if i < j {
      RunningTotalsNonDecreasing(disks, i, j - 1);
      assert disks[..j][..j - 1] == disks[..j - 1];
    }
  }

  /** The figures of two lists of disks add up. */
  lemma {:induction false} SpaceAppend(a: seq<Disk>, b: seq<Disk>)
    ensures TotalSpace(a + b) == TotalSpace(a) + TotalSpace(b)
    ensures AvailableSpace(a + b) == AvailableSpace(a) + AvailableSpace(b)
    decreases |b|
  {
    if b == [] {
      assert a + b == a;
    } else {
      assert (a + b)[..|a + b| - 1] == a + b[..|b| - 1];
      SpaceAppend(a, b[..|b| - 1]);
    }
  }

  /** Taking disk `j` out of the list leaves the other disks. */
  lemma RemoveDiskMultiset(b: seq<Disk>, j: nat)
    requires j < |b|
    ensures multiset(b[..j] + b[j + 1..]) == multiset(b) - multiset{b[j]}
  {
    assert b == b[..j] + [b[j]] + b[j + 1..];
  }

  /** Taking disk `j` out of the list removes exactly its figures. */
  lemma RemoveDisk(b: seq<Disk>, j: nat)
    requires j < |b|
    ensures TotalSpace(b) == TotalSpace(b[..j] + b[j + 1..]) + AsI64(b[j].totalSpace)
    ensures AvailableSpace(b) == AvailableSpace(b[..j] + b[j + 1..]) + AsI64(b[j].availableSpace)
  {
    var x, front, back := b[j], b[..j], b[j + 1..];
    assert b == front + ([x] + back);
    assert TotalSpace(b) == TotalSpace(front + back) + AsI64(x.totalSpace) by {
      SpaceSplit(front, x, back);
      SingleDisk(x);
    }
    assert AvailableSpace(b) == AvailableSpace(front + back) + AsI64(x.availableSpace) by {
      SpaceSplit(front, x, back);
      SingleDisk(x);
    }
  }

  lemma SpaceSplit(front: seq<Disk>, x: Disk, back: seq<Disk>)
    ensures TotalSpace(front + ([x] + back)) == TotalSpace(front + back) + TotalSpace([x])
    ensures AvailableSpace(front + ([x] + back)) == AvailableSpace(front + back) + AvailableSpace([x])
  {
    SpaceAppend(front, [x] + back);
    SpaceAppend([x], back);
    SpaceAppend(front, back);
  }

  lemma SingleDisk(x: Disk)
    ensures TotalSpace([x]) == AsI64(x.totalSpace) && AvailableSpace([x]) == AsI64(x.availableSpace)
  {
    assert [x][..0] == [];
  }

  /**
    The totals do not depend on the order in which the disks are listed:
    the last entry is the same for any ordering of the same disks.
   */
  lemma {:induction false} TotalsIgnoreDiskOrder(a: seq<Disk>, b: seq<Disk>)
    requires multiset(a) == multiset(b)
    ensures TotalSpace(a) == TotalSpace(b) && AvailableSpace(a) == AvailableSpace(b)
    decreases |a|
  {
    if a == [] {
      assert |b| == |multiset(b)| == 0;
    } else {
      var x := a[|a| - 1];
      var front := a[..|a| - 1];
      assert a == front + [x];
      assert multiset(front) == multiset(a) - multiset{x};
      assert x in multiset(b);
      var j :| 0 <= j < |b| && b[j] == x;
      RemoveDiskMultiset(b, j);
      RemoveDisk(b, j);
      TotalsIgnoreDiskOrder(front, b[..j] + b[j + 1..]);
    }
  }

  /** A disk reporting more than `i64::MAX` bytes is counted as negative space. */
  lemma OversizedDiskCountsNegative(d: Disk)
    requires d.totalSpace > I64_MAX
    ensures TotalSpace([d]) < 0
  {
    assert [d][..0] == [];
  }
}
