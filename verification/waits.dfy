/**
 * Under FCFS a dispatched process runs to completion, so every total wait
 * the engine reports is the initial wait it recorded at that process's
 * first dispatch: the two lists of logged waits coincide once the queue
 * drains, and so do the two statistics totals.
 */
module WaitProofs {
  import opened Processes
  import opened Statistics
  import opened Admission
  import opened Events
  import opened Engine
  import opened EngineProofs

  lemma AdmitWaits(s: State)
    requires QueueOk(s) && WaitsOk(s)
    ensures WaitsOk(Admit(s))
  {
    AppendCreated(s.log, Partition(s.pending, s.time).admitted);
    AdmitHead(s);
  }

  lemma ResumeWaits(a: State)
    requires a.ready != [] && WaitsOk(a)
    ensures WaitsOk(Resume(a))
  {
    if a.switching {
      AppendEvent(a.log, ContextSwitch(a.time - HalfSwitchTime, a.lastId, a.ready[0].id));
    }
  }

  lemma DispatchWaits(r: State)
    requires r.ready != [] && WaitsOk(r)
    ensures WaitsOk(Dispatch(r))
  {
    var h := r.ready[0];
    if !h.accessed {
      AppendEvent(r.log, Accessed(r.time, MarkAccessed(h, r.time - h.arrival)));
    }
  }

  lemma ServeWaits(d: State)
    requires QueueOk(d) && d.ready != [] && d.ready[0].accessed && WaitsOk(d)
    ensures WaitsOk(Tick(Serve(d)))
  {
    if d.ready[0].remaining == 1 {
      var e := CompletionEvent(d);
      var tail := d.ready[1..];
      CompletionProjections(d);
      assert e.totalWait == d.ready[0].initialWait;
      AppendEvent(d.log, e);
      if tail != [] {
        assert Fresh(d.ready[1]);
        AppendEvent(d.log + [e], ContextSwitch(d.time + 1, e.p.id, tail[0].id));
      }
    }
  }

  lemma BusyStepWaits(input: seq<Process>, init: Stats, s: State)
    requires Inv(input, init, s) && WaitsOk(s) && Admit(s).ready != []
    ensures WaitsOk(Tick(Serve(Dispatch(Resume(Admit(s))))))
  {
    var a := Admit(s);
    AdmitKeeps(input, init, s);
    AdmitWaits(s);
    ResumeKeeps(input, init, a);
    var r := Resume(a);
    ResumeWaits(a);
    DispatchKeeps(input, init, r);
    DispatchWaits(r);
    ServeWaits(Dispatch(r));
  }

  /** One iteration of the loop keeps the reported waits equal to the initial ones. */
  lemma StepWaits(input: seq<Process>, init: Stats, s: State)
    requires Inv(input, init, s) && WaitsOk(s)
    ensures WaitsOk(Step(s))
  {
    StepShape(s);
    if Admit(s).ready == [] {
      AdmitWaits(s);
    } else {
      BusyStepWaits(input, init, s);
    }
  }

  /**
   * Once nothing is running, the logged total waits are exactly the logged
   * initial waits, and the accumulated wait total has grown by exactly what
   * the initial-wait total has.
   */
  lemma DrainedWaits(init: Stats, s: State)
    requires WaitsOk(s) && s.ready == [] && s.stats == Replay(init, s.log)
    ensures Waits(s.log) == InitialWaits(s.log)
    ensures s.stats.wait.total - init.wait.total == s.stats.initialWait.total - init.initialWait.total
  {
    assert Waits(s.log) + [] == Waits(s.log);
  }
}
