/**
 * The statistics accumulator: the nine global totals, minima and maxima of
 * the simulator, kept as integers (only integer values are ever stored).
 * A minimum is the least of its sentinel and every recorded value.
 */
module Statistics {

  /** Sentinel the minima hold when the program starts. */
  const StartSentinel := 5000

  /** Per-process sentinel the minima are reset to after a report. */
  const ResetSentinelPerProcess := 5000

  function Min(a: int, b: int): int { if a <= b then a else b }

  function Max(a: int, b: int): int { if a >= b then a else b }

  function Sum(vs: seq<int>): int
    decreases |vs|
  {
    if vs == [] then 0 else Sum(vs[..|vs| - 1]) + vs[|vs| - 1]
  }

  /** Running total, least and greatest value of one metric. */
  datatype Metric = Metric(total: int, least: int, most: int)
  {
    /** Records one value: `total += v; min = min(min, v); max = max(max, v)`. */
    function Add(v: int): (r: Metric)
      ensures r.total == total + v
      ensures r.least <= least && r.least <= v && (r.least == least || r.least == v)
      ensures r.most >= most && r.most >= v && (r.most == most || r.most == v)
    {
      Metric(total + v, Min(least, v), Max(most, v))
    }
  }

  /**
   * Records `vs` in order. The total grows by their sum; the least value is
   * below the starting one and every recorded one, and is one of them; the
   * greatest likewise from above.
   */
  function AddAll(m: Metric, vs: seq<int>): (r: Metric)
    ensures r.total == m.total + Sum(vs)
    ensures r.least <= m.least && forall v :: v in vs ==> r.least <= v
    ensures r.least == m.least || r.least in vs
    ensures r.most >= m.most && forall v :: v in vs ==> r.most >= v
    ensures r.most == m.most || r.most in vs
    decreases |vs|
  {
    if vs == [] then m
    else
      var init := vs[..|vs| - 1];
      assert vs == init + [vs[|vs| - 1]];
      AddAll(m, init).Add(vs[|vs| - 1])
  }

  lemma AddAllSnoc(m: Metric, vs: seq<int>, v: int)
    ensures AddAll(m, vs + [v]) == AddAll(m, vs).Add(v)
  {
    assert (vs + [v])[..|vs|] == vs;
  }

  /** The three accumulated metrics. */
  datatype Stats = Stats(turnaround: Metric, wait: Metric, initialWait: Metric)

  /** The globals as the program starts: totals and maxima 0, minima 5000. */
  function Initial(): (s: Stats)
    ensures s.turnaround.total == s.wait.total == s.initialWait.total == 0
    ensures s.turnaround.most == s.wait.most == s.initialWait.most == 0
    ensures s.turnaround.least == s.wait.least == s.initialWait.least == StartSentinel
  {
    var m := Metric(0, StartSentinel, 0);
    Stats(m, m, m)
  }

  /**
   * The reset at the end of `printStatistics(numProcesses)`: totals and
   * maxima back to 0, minima to `5000 * numProcesses`.
   */
  function Reset(numProcesses: int): (s: Stats)
    ensures s.turnaround.total == s.wait.total == s.initialWait.total == 0
    ensures s.turnaround.most == s.wait.most == s.initialWait.most == 0
    ensures s.turnaround.least == s.wait.least == s.initialWait.least == ResetSentinelPerProcess * numProcesses
  {
    var m := Metric(0, ResetSentinelPerProcess * numProcesses, 0);
    Stats(m, m, m)
  }

  /** First dispatch: records an initial waiting time. */
  function RecordInitialWait(s: Stats, w: int): (r: Stats)
    ensures r.initialWait == s.initialWait.Add(w)
    ensures r.turnaround == s.turnaround && r.wait == s.wait
  {
    s.(initialWait := s.initialWait.Add(w))
  }

  /** Completion: records a turnaround and a total waiting time. */
  function RecordCompletion(s: Stats, turnaround: int, wait: int): (r: Stats)
    ensures r.turnaround == s.turnaround.Add(turnaround)
    ensures r.wait == s.wait.Add(wait)
    ensures r.initialWait == s.initialWait
  {
    s.(turnaround := s.turnaround.Add(turnaround), wait := s.wait.Add(wait))
  }

  /** When some value reaches the starting maximum, the final maximum is a recorded value. */
  lemma MostRecorded(m: Metric, vs: seq<int>, w: int)
    requires w in vs && w >= m.most
    ensures AddAll(m, vs).most in vs
  {
  }

  /** When some value is at or below the starting minimum, the final minimum is a recorded value. */
  lemma LeastRecorded(m: Metric, vs: seq<int>, w: int)
    requires w in vs && w <= m.least
    ensures AddAll(m, vs).least in vs
  {
  }

  /**
   * Accumulating from a reset state: each total is exactly the sum of the
   * recorded values, the maxima are the greatest recorded value (all values
   * being non-negative), and a minimum is the least recorded value unless
   * every recorded value exceeds the sentinel.
   */
  lemma AfterReset(numProcesses: int, vs: seq<int>)
    requires forall v :: v in vs ==> v >= 0
    ensures AddAll(Reset(numProcesses).turnaround, vs).total == Sum(vs)
    ensures vs != [] ==> AddAll(Reset(numProcesses).turnaround, vs).most in vs
    ensures AddAll(Reset(numProcesses).turnaround, vs).least <= ResetSentinelPerProcess * numProcesses
    ensures (exists v :: v in vs && v <= ResetSentinelPerProcess * numProcesses)
              ==> AddAll(Reset(numProcesses).turnaround, vs).least in vs
  {
    var m := Reset(numProcesses).turnaround;
    if vs != [] {
      assert vs[0] in vs;
      MostRecorded(m, vs, vs[0]);
    }
    if exists v :: v in vs && v <= ResetSentinelPerProcess * numProcesses {
      var v :| v in vs && v <= ResetSentinelPerProcess * numProcesses;
      LeastRecorded(m, vs, v);
    }
  }
}
