/**
 * The driver: `firstComeFirstServe` as a loop over the engine's step, and
 * `main`'s normalise-run-report sequence on an already generated workload.
 */
module Scheduler {
  import opened Processes
  import opened Statistics
  import opened Events
  import opened Normalisation
  import opened Engine
  import opened EngineProofs
  import opened WaitProofs

  /** One iteration of an unfinished run keeps the invariant and lowers the measure. */
  lemma Iteration(input: seq<Process>, init: Stats, s: State)
    requires Inv(input, init, s) && s.completed != |input|
    ensures Inv(input, init, Step(s)) && Work(Step(s)) >= 0
    ensures Work(Step(s)) < Work(s) || (Work(Step(s)) == Work(s) && Gap(Step(s)) < Gap(s))
  {
    if s.pending == [] && s.ready == [] {
      assert false;
    }
    StepKeeps(input, init, s);
    StepProgress(s);
    WorkNonNegative(Step(s));
  }

  /** What a finished run reports. */
  lemma Outcome(input: seq<Process>, init: Stats, s: State)
    requires Inv(input, init, s) && WaitsOk(s) && s.completed == |input|
    ensures s.pending == [] && s.ready == []
    ensures multiset(Admitted(s.log)) == multiset(input)
    ensures Identities(Finished(s.log)) == Identities(Admitted(s.log))
    ensures SortedByArrival(input) ==> Identities(Finished(s.log)) == Identities(input)
    ensures Identities(Dispatched(s.log)) == Identities(Finished(s.log))
    ensures forall i :: 0 <= i < |s.log| ==> EventOk(s.log[i])
    ensures s.stats == Replay(init, s.log)
    ensures Waits(s.log) == InitialWaits(s.log)
    ensures s.stats.wait.total - init.wait.total == s.stats.initialWait.total - init.initialWait.total
    ensures |input| > 0 ==>
              && Switches(s.log) == |input| - 1
              && s.time == SumBy(input, BurstOf) + s.idle
                           + ContextSwitchTime * (|input| - 1) + HalfSwitchTime
  {
    Finish(input, init, s);
    if SortedByArrival(input) {
      assert Admitted(s.log) + [] == input;
    }
    assert Identities(Dispatched(s.log)) == Identities(Finished(s.log)) + [];
    DrainedWaits(init, s);
  }

  /**
   * `firstComeFirstServe(processes, numProcesses)` starting from the
   * statistics `stats`. It ends with every process completed and both
   * lists empty. Each process was created, dispatched once and completed
   * once; completions follow admission order, which is the input order
   * when the input is sorted by arrival. Every logged value satisfies the
   * turnaround and wait formulas, and the total waits reported at
   * completion are the initial waits recorded at dispatch. The statistics
   * are `stats` with every logged value recorded. With N > 0 processes there were N - 1 full
   * switches, and the clock ends at the total burst plus idle ticks plus
   * 14 per switch plus the final 7.
   */
  method FirstComeFirstServe(processes: seq<Process>, numProcesses: int, stats: Stats)
    returns (final: State)
    requires Workload(processes) && numProcesses == |processes|
    ensures final.completed == numProcesses && final.pending == [] && final.ready == []
    ensures multiset(Admitted(final.log)) == multiset(processes)
    ensures Identities(Finished(final.log)) == Identities(Admitted(final.log))
    ensures SortedByArrival(processes) ==> Identities(Finished(final.log)) == Identities(processes)
    ensures Identities(Dispatched(final.log)) == Identities(Finished(final.log))
    ensures forall i :: 0 <= i < |final.log| ==> EventOk(final.log[i])
    ensures final.stats == Replay(stats, final.log)
    ensures Waits(final.log) == InitialWaits(final.log)
    ensures final.stats.wait.total - stats.wait.total
            == final.stats.initialWait.total - stats.initialWait.total
    ensures numProcesses > 0 ==>
              && Switches(final.log) == numProcesses - 1
              && final.time == SumBy(processes, BurstOf) + final.idle
                               + ContextSwitchTime * (numProcesses - 1) + HalfSwitchTime
  {
    StartInv(processes, stats);
    var st := Start(processes, stats);
    WorkNonNegative(st);
    while st.completed != numProcesses
      invariant Inv(processes, stats, st)
      invariant WaitsOk(st)
      invariant Work(st) >= 0
      decreases Work(st), Gap(st)
    {
      Iteration(processes, stats, st);
      StepWaits(processes, stats, st);
      st := Step(st);
    }
    Outcome(processes, stats, st);
    final := st;
  }

  /**
   * `main`'s preparation of the generated workload: sorted by arrival and
   * numbered 1..N, a relabelled sorted permutation of what was generated.
   */
  method Prepare(generated: seq<Process>) returns (processes: seq<Process>, ghost sorted: seq<Process>)
    requires Workload(generated)
    ensures |processes| == |generated| && Workload(processes) && SortedByArrival(processes)
    ensures forall i :: 0 <= i < |processes| ==> processes[i].id == i + 1
    ensures SortedByArrival(sorted) && multiset(sorted) == multiset(generated)
    ensures processes == Relabel(sorted)
  {
    NormaliseSpec(generated);
    processes := Normalise(generated);
    sorted := SortByArrival(generated);
  }

  /** Records with the profiles of a list numbered 1..N are numbered 1..N too. */
  lemma NumberedInOrder(numbered: seq<Process>, s: seq<Process>)
    requires forall i :: 0 <= i < |numbered| ==> numbered[i].id == i + 1
    requires Identities(s) == Identities(numbered)
    ensures |s| == |numbered|
    ensures forall i :: 0 <= i < |s| ==> s[i].id == i + 1
  {
    forall i | 0 <= i < |s|
      ensures s[i].id == i + 1
    {
      assert Identities(s)[i] == Identities(numbered)[i];
    }
  }

  /**
   * What `main` reports after FCFS ran on a workload numbered 1..N: the
   * completions are numbered 1..N in order, and the totals are the sums of
   * the logged values.
   */
  lemma Report(processes: seq<Process>, log: seq<Event>, reported: Stats)
    requires forall i :: 0 <= i < |processes| ==> processes[i].id == i + 1
    requires Identities(Finished(log)) == Identities(processes)
    requires reported == Replay(Initial(), log) && Waits(log) == InitialWaits(log)
    ensures |Finished(log)| == |processes|
    ensures forall i :: 0 <= i < |processes| ==> Finished(log)[i].id == i + 1
    ensures reported.turnaround.total == Sum(Turnarounds(log))
    ensures reported.wait.total == reported.initialWait.total == Sum(Waits(log))
  {
    NumberedInOrder(processes, Finished(log));
  }

  /**
   * `main` after generation: sort by arrival, number the processes 1..N,
   * run FCFS from the program's initial statistics, report, and reset the
   * statistics for the next policy. The processes complete with
   * identifiers 1, 2, ..., N, in that order, each a relabelled record of
   * the generated workload taken in arrival order.
   */
  method Simulate(generated: seq<Process>, numProcesses: int)
    returns (final: State, reported: Stats, afterReport: Stats)
    requires Workload(generated) && numProcesses == |generated|
    ensures |Finished(final.log)| == numProcesses
    ensures forall i :: 0 <= i < numProcesses ==> Finished(final.log)[i].id == i + 1
    ensures exists q :: SortedByArrival(q) && multiset(q) == multiset(generated)
                        && Identities(Finished(final.log)) == Identities(Relabel(q))
    ensures reported == Replay(Initial(), final.log)
    ensures reported.turnaround.total == Sum(Turnarounds(final.log))
    ensures reported.wait.total == reported.initialWait.total == Sum(Waits(final.log))
    ensures afterReport == Reset(numProcesses)
  {
    ghost var sorted;
    var processes;
    processes, sorted := Prepare(generated);
    final := FirstComeFirstServe(processes, numProcesses, Initial());
    Report(processes, final.log, final.stats);
    assert Identities(Finished(final.log)) == Identities(Relabel(sorted));
    reported := final.stats;
    afterReport := Reset(numProcesses);
  }
}
