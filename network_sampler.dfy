/**
 The network throughput figure of the dashboard: a single-owner sampler that keeps
 the previous cumulative counter snapshot and reports each call's difference
 from it, scaled from bytes to kilobits.
 */
module NetworkSampler {

  /** A snapshot of the host's cumulative network counters, in bytes. */
  datatype NetIO = NetIO(bytesSent: int, bytesRecv: int)

  /** The two figures `get_network_stats` reports, in kilobits. */
  datatype NetStats = NetStats(kbpsSent: real, kbpsRecv: real)

  /** Bytes to kilobits: times 8, divided by 1000, with no clamping. */
  function Kbps(deltaBytes: int): (r: real)
    ensures r * 125.0 == deltaBytes as real
    ensures r < 0.0 <==> deltaBytes < 0
    ensures r == 0.0 <==> deltaBytes == 0
  {
    (deltaBytes * 8) as real / 1000.0
  }

  /** What one call reports, given the snapshot held before it and the current one. */
  function Rate(previous: NetIO, current: NetIO): NetStats
  {
    NetStats(Kbps(current.bytesSent - previous.bytesSent),
             Kbps(current.bytesRecv - previous.bytesRecv))
  }

  /** The snapshot held after a run of calls fed `samples` from `initial`. */
  function Latest(initial: NetIO, samples: seq<NetIO>): NetIO
  {
    if samples == [] then initial else samples[|samples| - 1]
  }

  /** What a run of calls reports: call `i` sees `samples[i]` against the
      snapshot the previous call stored (`initial` for the first call). */
  function RunStats(initial: NetIO, samples: seq<NetIO>): (r: seq<NetStats>)
    ensures |r| == |samples|
  {
    if samples == [] then []
    else
      var n := |samples| - 1;
      RunStats(initial, samples[..n]) + [Rate(Latest(initial, samples[..n]), samples[n])]
  }

  /** Total of the sent figures of a run. */
  function TotalSent(stats: seq<NetStats>): real
  {
    if stats == [] then 0.0 else TotalSent(stats[..|stats| - 1]) + stats[|stats| - 1].kbpsSent
  }

  /** Total of the received figures of a run. */
  function TotalRecv(stats: seq<NetStats>): real
  {
    if stats == [] then 0.0 else TotalRecv(stats[..|stats| - 1]) + stats[|stats| - 1].kbpsRecv
  }

  /** The reported figures telescope: over a run they add up to the kilobits
      between the initial snapshot and the latest one. */
  lemma {:induction false} RunTelescopes(initial: NetIO, samples: seq<NetIO>)
    ensures TotalSent(RunStats(initial, samples)) == Kbps(Latest(initial, samples).bytesSent - initial.bytesSent)
    ensures TotalRecv(RunStats(initial, samples)) == Kbps(Latest(initial, samples).bytesRecv - initial.bytesRecv)
  {
    if samples != [] {
      var n := |samples| - 1;
      RunTelescopes(initial, samples[..n]);
      var stats := RunStats(initial, samples);
      assert stats[..|stats| - 1] == RunStats(initial, samples[..n]);
    }
  }

  /** Neither figure is clamped: each is negative exactly when its counter went
      down since the previous snapshot (a reset or a wrap-around). */
  lemma DecreasedCounterIsNegative(previous: NetIO, current: NetIO)
    ensures Rate(previous, current).kbpsSent < 0.0 <==> current.bytesSent < previous.bytesSent
    ensures Rate(previous, current).kbpsRecv < 0.0 <==> current.bytesRecv < previous.bytesRecv
  {
  }

  /** Snapshots of 1000/2000 then 1500/2800 bytes report 4 and 6.4 kilobits. */
  lemma RateExample()
    ensures Rate(NetIO(1000, 2000), NetIO(1500, 2800)) == NetStats(4.0, 6.4)
  {
  }

  /** The owner of the previous snapshot (the module-level `previous_net_io`). */
  class Sampler {
    var previous: NetIO
    ghost var initial: NetIO
    ghost var samples: seq<NetIO>
    ghost var history: seq<NetStats>

    /** The held snapshot is the latest one fed in, and the history holds
        what every call so far reported. */
    ghost predicate Valid()
      reads this
    {
      previous == Latest(initial, samples) && history == RunStats(initial, samples)
    }

    /** Takes the baseline snapshot at start-up. */
    constructor (baseline: NetIO)
      ensures Valid()
      ensures previous == baseline && initial == baseline && samples == [] && history == []
    {
      previous := baseline;
      initial := baseline;
      samples := [];
      history := [];
    }

    /** `get_network_stats`: the difference of `current` from the held snapshot,
        in kilobits; the held snapshot becomes `current` unconditionally. */
    method GetNetworkStats(current: NetIO) returns (stats: NetStats)
      requires Valid()
      modifies this
      ensures Valid()
      ensures stats == Rate(old(previous), current)
      ensures previous == current && initial == old(initial)
      ensures samples == old(samples) + [current] && history == old(history) + [stats]
    {
      stats := NetStats(Kbps(current.bytesSent - previous.bytesSent),
                        Kbps(current.bytesRecv - previous.bytesRecv));
      previous := current;
      assert (samples + [current])[..|samples|] == samples;
      samples := samples + [current];
      history := history + [stats];
    }

    /** Over every call so far, the reported figures add up to the kilobits
        between the start-up baseline and the held snapshot. */
    lemma HistoryTelescopes()
      requires Valid()
      ensures TotalSent(history) == Kbps(previous.bytesSent - initial.bytesSent)
      ensures TotalRecv(history) == Kbps(previous.bytesRecv - initial.bytesRecv)
    {
      RunTelescopes(initial, samples);
    }
  }
}
