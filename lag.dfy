/**
 * The consumer-lag monitor (consumer.rs): every tick it lists the topic's
 * partitions and adds up, over the partitions whose numbers are available,
 * how far the high watermark is ahead of the consumer's position.
 */
module LagMonitor {
  import opened Base

  /** A consumer position as the broker client reports it; only a concrete offset yields a lag. */
  datatype Offset = Beginning | End | Stored | Invalid | At(offset: int) | Tail(back: int)

  /** One element of the consumer's position list. */
  datatype PartitionPosition = PartitionPosition(partition: int, offset: Offset)

  /**
   * The broker queries made per partition: its (low, high) watermarks, and
   * the consumer's position list as returned when that partition is visited.
   * Either may fail.
   */
  datatype Broker = Broker(
    watermarks: int -> Option<(int, int)>,
    position: int -> Option<seq<PartitionPosition>>)

  /** The first element of the position list that belongs to partition `pid`. */
  function FindPartition(elems: seq<PartitionPosition>, pid: int): (r: Option<PartitionPosition>)
    ensures r.None? <==> forall e | e in elems :: e.partition != pid
    ensures r.Some? ==> r.value in elems && r.value.partition == pid
  {
    if elems == [] then None
    else if elems[0].partition == pid then Some(elems[0])
    else FindPartition(elems[1..], pid)
  }

  /** The element found is the first one of its partition: every element before it belongs to another partition. */
  lemma {:induction false} FindPartitionIsFirst(elems: seq<PartitionPosition>, pid: int)
    ensures var r := FindPartition(elems, pid);
      r.Some? ==> exists i | 0 <= i < |elems| :: elems[i] == r.value && forall j | 0 <= j < i :: elems[j].partition != pid
  {
    var r := FindPartition(elems, pid);
    if elems != [] && elems[0].partition == pid {
      assert elems[0] == r.value;
    } else if elems != [] {
      var rest := elems[1..];
      FindPartitionIsFirst(rest, pid);
      if r.Some? {
        var i :| 0 <= i < |rest| && rest[i] == r.value && forall j | 0 <= j < i :: rest[j].partition != pid;
        assert elems[i + 1] == r.value;
        forall j | 0 <= j < i + 1
          ensures elems[j].partition != pid
        {
          if j > 0 {
            assert elems[j] == rest[j - 1];
          }
        }
      }
    }
  }

  /** The lag of one partition, or None when a query failed, the partition has no position, or it is not a concrete offset. */
  function PartitionLag(pid: int, broker: Broker): Option<int>
  {
    match broker.watermarks(pid)
    case None => None
    case Some(marks) =>
      match broker.position(pid)
      case None => None
      case Some(elems) =>
        match FindPartition(elems, pid)
        case None => None
        case Some(elem) =>
          if elem.offset.At? then Some(marks.1 - elem.offset.offset) else None
  }

  /** The sum of the available partition lags; an unavailable partition adds nothing. */
  function TotalLag(pids: seq<int>, broker: Broker): int
  {
    if pids == [] then 0
    else
      TotalLag(pids[..|pids| - 1], broker)
        + match PartitionLag(pids[|pids| - 1], broker) case None => 0 case Some(lag) => lag
  }

  /** Splitting the partition list splits the total. */
  lemma {:induction false} TotalLagAdditive(ps: seq<int>, qs: seq<int>, broker: Broker)
    ensures TotalLag(ps + qs, broker) == TotalLag(ps, broker) + TotalLag(qs, broker)
    decreases |qs|
  {
    if qs == [] {
      assert ps + qs == ps;
    } else {
      var init := qs[..|qs| - 1];
      assert (ps + qs)[..|ps + qs| - 1] == ps + init;
      TotalLagAdditive(ps, init, broker);
    }
  }

  /** A partition whose lag is unavailable can be dropped without changing the total. */
  lemma UnavailablePartitionIgnored(ps: seq<int>, pid: int, qs: seq<int>, broker: Broker)
    requires PartitionLag(pid, broker).None?
    ensures TotalLag(ps + [pid] + qs, broker) == TotalLag(ps + qs, broker)
  {
    TotalLagAdditive(ps + [pid], qs, broker);
    TotalLagAdditive(ps, [pid], broker);
    TotalLagAdditive(ps, qs, broker);
    assert [pid][..0] == [];
  }

  /** When no available partition is behind its watermark, the total is not negative. */
  lemma {:induction false} TotalLagNonNegative(pids: seq<int>, broker: Broker)
    requires forall i | 0 <= i < |pids| :: PartitionLag(pids[i], broker).Some? ==> PartitionLag(pids[i], broker).value >= 0
    ensures TotalLag(pids, broker) >= 0
  {
    if pids != [] {
      TotalLagNonNegative(pids[..|pids| - 1], broker);
    }
  }

  /** Two partitions with watermark 100 at position 80 and watermark 30 at position 25 give a total of 25. */
  lemma TwoPartitionExample()
    ensures var broker := Broker(
        pid => if pid == 0 then Some((0, 100)) else Some((0, 30)),
        pid => Some([PartitionPosition(0, At(80)), PartitionPosition(1, At(25))]));
      TotalLag([0, 1], broker) == 25
  {
    var broker := Broker(
        pid => if pid == 0 then Some((0, 100)) else Some((0, 30)),
        pid => Some([PartitionPosition(0, At(80)), PartitionPosition(1, At(25))]));
    assert [0, 1][..1] == [0];
    assert [0][..0] == [];
    assert PartitionLag(0, broker) == Some(20);
    assert PartitionLag(1, broker) == Some(5);
  }

  /**
   * One monitor tick. `metadata` is the outcome of the metadata fetch: the
   * partition ids of each topic it lists. A failed fetch skips the tick (no
   * gauge value); otherwise the gauge is set to the total lag over the first
   * topic's partitions, 0 when no topic is listed.
   */
  method LagTick(metadata: Option<seq<seq<int>>>, broker: Broker) returns (gauge: Option<int>)
    ensures gauge.None? <==> metadata.None?
    ensures metadata.Some? && metadata.value == [] ==> gauge == Some(0)
    ensures metadata.Some? && metadata.value != [] ==> gauge == Some(TotalLag(metadata.value[0], broker))
  {
    if metadata.None? {
      return None;
    }
    var total := 0;
    if metadata.value != [] {
      var pids := metadata.value[0];
      for i := 0 to |pids|
        invariant total == TotalLag(pids[..i], broker)
      {
        assert pids[..i + 1][..i] == pids[..i];
        var pid := pids[i];
        var marks := broker.watermarks(pid);
        if marks.Some? {
          var positions := broker.position(pid);
          if positions.Some? {
            var elem := FindPartition(positions.value, pid);
            if elem.Some? && elem.value.offset.At? {
              total := total + (marks.value.1 - elem.value.offset.offset);
            }
          }
        }
      }
      assert pids[..|pids|] == pids;
    }
    gauge := Some(total);
  }
}
