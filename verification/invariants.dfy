/**
 * Proofs that every phase of an engine iteration keeps the loop's
 * invariant, and that every busy or idle iteration brings the run closer
 * to its end.
 */
module EngineProofs {
  import opened Processes
  import opened Statistics
  import opened Admission
  import opened Events
  import opened Normalisation
  import opened Engine

  lemma StartInv(input: seq<Process>, init: Stats)
    requires Workload(input)
    ensures Inv(input, init, Start(input, init))
  {
    var s := Start(input, init);
    assert Admitted(s.log) == Finished(s.log) == Dispatched(s.log) == [];
    assert s.pending == input && [] + input == input;
    assert Replay(init, s.log) == init;
    assert Served(s) == 0 && Switches(s.log) == 0;
  }

  /**
   * While a process is in the ready queue its remaining burst stays within
   * `1..burst`: every record behind the head is unserved, and the head has
   * lost exactly one unit per tick since its first dispatch.
   */
  lemma ServiceBounds(input: seq<Process>, init: Stats, s: State)
    requires Inv(input, init, s)
    ensures forall p :: p in s.ready ==> 1 <= p.remaining <= p.burst
    ensures forall i :: 1 <= i < |s.ready| ==> s.ready[i].remaining == s.ready[i].burst
    ensures s.ready != [] && !s.ready[0].accessed ==> s.ready[0].remaining == s.ready[0].burst
    ensures s.ready != [] && s.ready[0].accessed ==>
              var h := s.ready[0];
              h.remaining == h.burst - (s.time - (h.arrival + h.initialWait))
  {
  }

  /** Creation and switch lines record no statistic. */
  lemma ReplayQuiet(init: Stats, log: seq<Event>, e: Event)
    requires e.Created? || e.ContextSwitch?
    ensures Replay(init, log + [e]) == Replay(init, log)
  {
    AppendEvent(log, e);
    assert Turnarounds(log) + [] == Turnarounds(log);
    assert Waits(log) + [] == Waits(log);
    assert InitialWaits(log) + [] == InitialWaits(log);
  }

  /** A first-access line records its initial waiting time. */
  lemma ReplayAccessed(init: Stats, log: seq<Event>, e: Event)
    requires e.Accessed?
    ensures Replay(init, log + [e])
            == RecordInitialWait(Replay(init, log), e.p.initialWait)
  {
    AppendEvent(log, e);
    assert Turnarounds(log) + [] == Turnarounds(log);
    assert Waits(log) + [] == Waits(log);
    AddAllSnoc(init.initialWait, InitialWaits(log), e.p.initialWait);
  }

  /** A completion line records its turnaround and total waiting time. */
  lemma ReplayCompleted(init: Stats, log: seq<Event>, e: Event)
    requires e.Completed?
    ensures Replay(init, log + [e])
            == RecordCompletion(Replay(init, log), e.turnaround, e.totalWait)
  {
    AppendEvent(log, e);
    assert InitialWaits(log) + [] == InitialWaits(log);
    AddAllSnoc(init.turnaround, Turnarounds(log), e.turnaround);
    AddAllSnoc(init.wait, Waits(log), e.totalWait);
  }

  lemma LogOkAppend(log: seq<Event>, e: Event)
    requires LogOk(log) && EventOk(e)
    ensures LogOk(log + [e])
  {
    assert forall i :: 0 <= i < |log| ==> (log + [e])[i] == log[i];
  }


  lemma SumBySnoc(s: seq<Process>, p: Process, f: Process -> int)
    ensures SumBy(s + [p], f) == SumBy(s, f) + f(p)
  {
    assert (s + [p])[..|s|] == s;
  }

  lemma SumByCons(p: Process, s: seq<Process>, f: Process -> int)
    ensures SumBy([p] + s, f) == f(p) + SumBy(s, f)
  {
    SumByConcat([p], s, f);
    assert [p][..0] == [];
  }

  /** Every admitted record is a fresh pending record that has arrived. */
  lemma AdmittedRecords(s: State)
    requires QueueOk(s)
    ensures forall p :: p in Partition(s.pending, s.time).admitted ==>
              Fresh(p) && p.burst >= 1 && p.arrival <= s.time
  {
    var split := Partition(s.pending, s.time);
    forall p | p in split.admitted
      ensures Fresh(p) && p.burst >= 1
    {
      assert p in multiset(s.pending);
      var i :| 0 <= i < |s.pending| && s.pending[i] == p;
    }
  }

  lemma AdmitQueue(s: State)
    requires QueueOk(s)
    ensures QueueOk(Admit(s))
  {
    var split := Partition(s.pending, s.time);
    var a := Admit(s);
    AdmittedRecords(s);
    forall i | 0 <= i < |a.pending|
      ensures Fresh(a.pending[i]) && a.pending[i].burst >= 1
    {
      assert a.pending[i] in multiset(s.pending);
    }
    forall i | 0 <= i < |a.ready|
      ensures a.ready[i].arrival <= a.time && 1 <= a.ready[i].remaining <= a.ready[i].burst
      ensures i >= 1 ==> Fresh(a.ready[i])
    {
      if i >= |s.ready| {
        assert a.ready[i] == split.admitted[i - |s.ready|];
      }
    }
  }

  lemma AdmitOrder(input: seq<Process>, s: State)
    requires OrderOk(input, s)
    requires Admit(s).ready != [] && s.ready == [] ==> Fresh(Admit(s).ready[0])
    requires Admit(s).ready != [] && s.ready != [] ==> Admit(s).ready[0] == s.ready[0]
    ensures OrderOk(input, Admit(s))
  {
    AdmitProjections(s);
    AdmitCounts(input, s);
    AdmitSorted(input, s);
    AdmitIdentities(s);
  }

  lemma AdmitIdentities(s: State)
    requires Identities(Finished(s.log)) + Identities(s.ready) == Identities(Admitted(s.log))
    ensures Identities(Finished(Admit(s).log)) + Identities(Admit(s).ready) == Identities(Admitted(Admit(s).log))
  {
    var split := Partition(s.pending, s.time);
    var a := Admit(s);
    AdmitProjections(s);
    IdentitiesConcat(s.ready, split.admitted);
    IdentitiesConcat(Admitted(s.log), split.admitted);
    ConcatAssociates(Identities(Finished(s.log)), Identities(s.ready), Identities(split.admitted));
  }

  lemma AdmitCounts(input: seq<Process>, s: State)
    requires multiset(Admitted(s.log)) + multiset(s.pending) == multiset(input)
    requires |Admitted(s.log)| + |s.pending| == |input|
    ensures multiset(Admitted(Admit(s).log)) + multiset(Admit(s).pending) == multiset(input)
    ensures |Admitted(Admit(s).log)| + |Admit(s).pending| == |input|
  {
    var split := Partition(s.pending, s.time);
    AdmitProjections(s);
    assert |multiset(split.admitted)| + |multiset(split.rest)| == |multiset(s.pending)|;
  }

  lemma AdmitSorted(input: seq<Process>, s: State)
    requires SortedByArrival(input) ==> Admitted(s.log) + s.pending == input
    ensures SortedByArrival(input) ==> Admitted(Admit(s).log) + Admit(s).pending == input
  {
    if SortedByArrival(input) {
      var split := Partition(s.pending, s.time);
      AdmitProjections(s);
      SortedSuffix(Admitted(s.log), s.pending);
      SortedPartitionIsSplit(s.pending, s.time);
      assert Admitted(Admit(s).log) + Admit(s).pending == (Admitted(s.log) + split.admitted) + split.rest;
      ConcatAssociates(Admitted(s.log), split.admitted, split.rest);
    }
  }

  lemma AdmitLog(s: State)
    requires QueueOk(s) && LogOk(s.log)
    ensures LogOk(Admit(s).log)
  {
    var split := Partition(s.pending, s.time);
    var a := Admit(s);
    AdmittedRecords(s);
    forall i | 0 <= i < |a.log|
      ensures EventOk(a.log[i])
    {
      if i >= |s.log| {
        assert a.log[i] == CreatedEvents(split.admitted)[i - |s.log|];
        assert split.admitted[i - |s.log|] in split.admitted;
      }
    }
  }

  /** The head after admission is the old head, or a fresh arrival. */
  lemma AdmitHead(s: State)
    requires QueueOk(s)
    ensures Admit(s).ready != [] ==>
              if s.ready != [] then Admit(s).ready[0] == s.ready[0] else Fresh(Admit(s).ready[0])
  {
    AdmittedRecords(s);
    var a := Admit(s);
    if s.ready == [] && a.ready != [] {
      assert a.ready[0] in Partition(s.pending, s.time).admitted;
    }
  }

  lemma AdmitProjections(s: State)
    ensures Admitted(Admit(s).log) == Admitted(s.log) + Partition(s.pending, s.time).admitted
    ensures Finished(Admit(s).log) == Finished(s.log)
    ensures Dispatched(Admit(s).log) == Dispatched(s.log)
    ensures Switches(Admit(s).log) == Switches(s.log)
    ensures Replay(Admit(s).stats, Admit(s).log) == Replay(s.stats, s.log)
    ensures forall init :: Replay(init, Admit(s).log) == Replay(init, s.log)
  {
    AppendCreated(s.log, Partition(s.pending, s.time).admitted);
  }

  lemma AdmitAccounting(init: Stats, s: State)
    requires AccountingOk(init, s)
    requires Admit(s).ready != [] && s.ready == [] ==> Fresh(Admit(s).ready[0])
    requires Admit(s).ready != [] && s.ready != [] ==> Admit(s).ready[0] == s.ready[0]
    ensures AccountingOk(init, Admit(s))
  {
    AdmitProjections(s);
    assert Served(Admit(s)) == Served(s);
  }

  /** An admission that leaves the queue empty found nothing arrived and changed nothing. */
  lemma AdmitIdle(s: State)
    requires Admit(s).ready == []
    ensures s.ready == [] && Admit(s).pending == s.pending
    ensures forall i :: 0 <= i < |s.pending| ==> s.pending[i].arrival > s.time
  {
    var split := Partition(s.pending, s.time);
    assert split.admitted == [];
    assert multiset(split.rest) == multiset(s.pending);
    forall i | 0 <= i < |s.pending|
      ensures s.pending[i].arrival > s.time
    {
      assert s.pending[i] in multiset(s.pending);
    }
    NothingArrived(s.pending, s.time);
  }

  lemma AdmitWork(s: State)
    ensures Work(Admit(s)) == Work(s)
  {
    var split := Partition(s.pending, s.time);
    SumByPermutation(split.admitted + split.rest, s.pending, RemainingOf);
    SumByConcat(split.admitted, split.rest, RemainingOf);
    SumByConcat(s.ready, split.admitted, RemainingOf);
  }

  /** The whole of admission, for the loop. */
  lemma AdmitKeeps(input: seq<Process>, init: Stats, s: State)
    requires Inv(input, init, s)
    ensures Core(input, init, Admit(s))
    ensures Admit(s).completed == s.completed && Admit(s).switching == s.switching
    ensures Admit(s).switching && Admit(s).ready != [] ==> Fresh(Admit(s).ready[0])
  {
    AdmitHead(s);
    AdmitQueue(s);
    AdmitOrder(input, s);
    AdmitLog(s);
    AdmitAccounting(init, s);
  }

  // ---------------------------------------------------------------------
  // Resume

  lemma ResumeProjections(a: State)
    requires a.ready != [] && a.switching
    ensures Admitted(Resume(a).log) == Admitted(a.log)
    ensures Dispatched(Resume(a).log) == Dispatched(a.log)
    ensures Finished(Resume(a).log) == Finished(a.log)
    ensures Switches(Resume(a).log) == Switches(a.log) + 1
    ensures forall init :: Replay(init, Resume(a).log) == Replay(init, a.log)
    ensures LogOk(a.log) ==> LogOk(Resume(a).log)
  {
    var e := ContextSwitch(a.time - HalfSwitchTime, a.lastId, a.ready[0].id);
    AppendEvent(a.log, e);
    forall init: Stats
      ensures Replay(init, Resume(a).log) == Replay(init, a.log)
    {
      ReplayQuiet(init, a.log, e);
    }
    if LogOk(a.log) {
      LogOkAppend(a.log, e);
    }
  }

  lemma ResumeQueue(a: State)
    requires QueueOk(a) && a.ready != [] && a.switching && Fresh(a.ready[0])
    ensures QueueOk(Resume(a))
  {
  }

  lemma ResumeOrder(input: seq<Process>, a: State)
    requires OrderOk(input, a) && a.ready != [] && a.switching
    ensures OrderOk(input, Resume(a))
  {
    ResumeProjections(a);
  }

  /** The resume charge turns the pending half switch into a full logged one. */
  lemma ResumeAccounting(init: Stats, a: State)
    requires AccountingOk(init, a) && a.ready != [] && a.switching
    ensures AccountingOk(init, Resume(a))
  {
    ResumeProjections(a);
    assert Served(Resume(a)) == Served(a);
  }

  lemma ResumeKeeps(input: seq<Process>, init: Stats, a: State)
    requires Core(input, init, a) && a.ready != []
    requires a.switching ==> Fresh(a.ready[0])
    ensures Core(input, init, Resume(a)) && !Resume(a).switching
    ensures Resume(a).completed == a.completed
  {
    if a.switching {
      ResumeProjections(a);
      ResumeQueue(a);
      ResumeOrder(input, a);
      ResumeAccounting(init, a);
    }
  }

  // ---------------------------------------------------------------------
  // Dispatch

  lemma DispatchProjections(r: State)
    requires r.ready != [] && !r.ready[0].accessed
    ensures Dispatch(r).ready == [Dispatch(r).ready[0]] + r.ready[1..]
    ensures Dispatch(r).ready[0].Identity() == r.ready[0].Identity()
    ensures Admitted(Dispatch(r).log) == Admitted(r.log)
    ensures Dispatched(Dispatch(r).log) == Dispatched(r.log) + [Dispatch(r).ready[0]]
    ensures Finished(Dispatch(r).log) == Finished(r.log)
    ensures Switches(Dispatch(r).log) == Switches(r.log)
  {
    var head := r.ready[0];
    AppendEvent(r.log, Accessed(r.time, MarkAccessed(head, r.time - head.arrival)));
  }

  lemma DispatchRecords(init: Stats, r: State)
    requires r.ready != [] && !r.ready[0].accessed
    requires r.stats == Replay(init, r.log)
    ensures Dispatch(r).stats == Replay(init, Dispatch(r).log)
  {
    var head := r.ready[0];
    ReplayAccessed(init, r.log, Accessed(r.time, MarkAccessed(head, r.time - head.arrival)));
  }

  lemma DispatchLog(r: State)
    requires r.ready != [] && !r.ready[0].accessed && r.ready[0].arrival <= r.time
    requires LogOk(r.log)
    ensures LogOk(Dispatch(r).log)
  {
    var head := r.ready[0];
    LogOkAppend(r.log, Accessed(r.time, MarkAccessed(head, r.time - head.arrival)));
  }

  lemma DispatchAccounting(init: Stats, r: State)
    requires AccountingOk(init, r) && r.ready != [] && !r.ready[0].accessed
    ensures AccountingOk(init, Dispatch(r))
  {
    DispatchProjections(r);
    DispatchRecords(init, r);
    assert Served(Dispatch(r)) == Served(r);
  }

  lemma DispatchKeeps(input: seq<Process>, init: Stats, r: State)
    requires Core(input, init, r) && r.ready != [] && !r.switching
    ensures Core(input, init, Dispatch(r))
    ensures Dispatch(r).ready != [] && Dispatch(r).ready[0].accessed && !Dispatch(r).switching
    ensures Dispatch(r).completed == r.completed
  {
    if !r.ready[0].accessed {
      DispatchLog(r);
      DispatchQueue(r);
      DispatchOrder(input, r);
      DispatchAccounting(init, r);
    }
  }

  lemma DispatchQueue(r: State)
    requires QueueOk(r) && r.ready != [] && !r.ready[0].accessed
    ensures QueueOk(Dispatch(r))
  {
    var d := Dispatch(r);
    assert forall i :: 1 <= i < |d.ready| ==> d.ready[i] == r.ready[i];
  }

  lemma DispatchOrder(input: seq<Process>, r: State)
    requires OrderOk(input, r) && r.ready != [] && !r.ready[0].accessed
    ensures OrderOk(input, Dispatch(r))
  {
    var d := Dispatch(r);
    DispatchProjections(r);
    DispatchIdentities(r);
  }

  lemma DispatchIdentities(r: State)
    requires r.ready != [] && !r.ready[0].accessed
    requires Identities(Dispatched(r.log)) == Identities(Finished(r.log))
    ensures Identities(Dispatch(r).ready) == Identities(r.ready)
    ensures Identities(Dispatched(Dispatch(r).log)) == Identities(Finished(Dispatch(r).log)) + [Dispatch(r).ready[0].Identity()]
  {
    var d := Dispatch(r);
    DispatchProjections(r);
    assert forall i :: 1 <= i < |d.ready| ==> d.ready[i] == r.ready[i];
    IdentitiesConcat(Dispatched(r.log), [d.ready[0]]);
  }

  // ---------------------------------------------------------------------
  // Service and completion

  /** The state after the tick's `currentTime++`. */
  function Tick(s: State): State {
    s.(time := s.time + 1)
  }

  /** A head still short of its burst after this tick stays at the head. */
  lemma ContinueQueue(d: State)
    requires QueueOk(d) && d.ready != [] && d.ready[0].accessed && d.ready[0].remaining > 1
    ensures QueueOk(Tick(Serve(d)))
  {
    var f := Tick(Serve(d));
    assert f.ready == [Decrement(d.ready[0])] + d.ready[1..];
    assert forall i :: 1 <= i < |f.ready| ==> f.ready[i] == d.ready[i];
  }

  lemma ContinueOrder(input: seq<Process>, d: State)
    requires OrderOk(input, d) && d.ready != [] && d.ready[0].remaining > 1
    ensures OrderOk(input, Tick(Serve(d)))
  {
    var f := Tick(Serve(d));
    assert f.ready == [Decrement(d.ready[0])] + d.ready[1..];
    assert forall i :: 1 <= i < |f.ready| ==> f.ready[i].Identity() == d.ready[i].Identity();
    assert Identities(f.ready) == Identities(d.ready);
  }

  /** A tick of service without completion is one more served tick on the clock. */
  lemma ContinueAccounting(init: Stats, d: State)
    requires AccountingOk(init, d) && d.ready != [] && d.ready[0].remaining > 1
    ensures AccountingOk(init, Tick(Serve(d)))
  {
    assert Served(Tick(Serve(d))) == Served(d) + 1;
  }

  lemma ServeContinues(input: seq<Process>, init: Stats, d: State)
    requires Core(input, init, d) && d.ready != [] && d.ready[0].accessed && !d.switching
    requires d.ready[0].remaining > 1
    ensures Inv(input, init, Tick(Serve(d)))
  {
    ContinueQueue(d);
    ContinueOrder(input, d);
    ContinueAccounting(init, d);
  }

  /** The completion line of a head with one tick left. */
  function CompletionEvent(d: State): Event
    requires d.ready != []
  {
    var head := Decrement(d.ready[0]);
    Completed(d.time + 1, head, d.time + 1 - head.arrival, d.time + 1 - head.arrival - head.burst)
  }

  /** The log after a completion: the completion line, then a switch line if a successor waits. */
  lemma CompletionShape(d: State)
    requires d.ready != [] && d.ready[0].remaining == 1
    ensures var e := CompletionEvent(d);
            var tail := d.ready[1..];
            && Serve(d).log == d.log + [e] + (if tail != [] then [ContextSwitch(d.time + 1, e.p.id, tail[0].id)] else [])
            && Serve(d).stats == RecordCompletion(d.stats, e.turnaround, e.totalWait)
  {
  }

  /** What a completion adds to each projection of the log. */
  lemma CompletionProjections(d: State)
    requires d.ready != [] && d.ready[0].remaining == 1
    ensures var e := CompletionEvent(d);
            var tail := d.ready[1..];
            && Serve(d).log == d.log + [e] + (if tail != [] then [ContextSwitch(d.time + 1, e.p.id, tail[0].id)] else [])
            && Admitted(Serve(d).log) == Admitted(d.log)
            && Dispatched(Serve(d).log) == Dispatched(d.log)
            && Finished(Serve(d).log) == Finished(d.log) + [e.p]
            && Switches(Serve(d).log) == Switches(d.log) + (if tail != [] then 1 else 0)
  {
    var e := CompletionEvent(d);
    var tail := d.ready[1..];
    CompletionShape(d);
    AppendEvent(d.log, e);
    if tail != [] {
      AppendEvent(d.log + [e], ContextSwitch(d.time + 1, e.p.id, tail[0].id));
    }
  }

  lemma CompletionRecords(init: Stats, d: State)
    requires d.ready != [] && d.ready[0].remaining == 1
    requires d.stats == Replay(init, d.log)
    ensures Serve(d).stats == Replay(init, Serve(d).log)
  {
    var e := CompletionEvent(d);
    var tail := d.ready[1..];
    CompletionShape(d);
    ReplayCompleted(init, d.log, e);
    if tail != [] {
      ReplayQuiet(init, d.log + [e], ContextSwitch(d.time + 1, e.p.id, tail[0].id));
    } else {
      assert Serve(d).log == d.log + [e];
    }
  }

  /** The completion line reports the turnaround and wait formulas, with the wait equal to the initial wait. */
  lemma CompletionLog(d: State)
    requires QueueOk(d) && d.ready != [] && d.ready[0].accessed && d.ready[0].remaining == 1
    requires LogOk(d.log)
    ensures LogOk(Serve(d).log)
  {
    var e := CompletionEvent(d);
    var tail := d.ready[1..];
    CompletionProjections(d);
    assert EventOk(e);
    LogOkAppend(d.log, e);
    if tail != [] {
      LogOkAppend(d.log + [e], ContextSwitch(d.time + 1, e.p.id, tail[0].id));
    }
  }

  lemma CompletionOrder(input: seq<Process>, d: State)
    requires OrderOk(input, d) && d.ready != [] && d.ready[0].accessed && d.ready[0].remaining == 1
    requires |d.ready| > 1 ==> !d.ready[1].accessed
    ensures OrderOk(input, Serve(d))
  {
    var b := Serve(d);
    CompletionProjections(d);
    CompletionIdentities(d);
    assert b.completed == |Finished(b.log)|;
    assert b.ready == [] || !b.ready[0].accessed;
    assert Identities(Dispatched(b.log)) == Identities(Finished(b.log));
  }

  lemma CompletionIdentities(d: State)
    requires d.ready != [] && d.ready[0].remaining == 1
    requires Identities(Finished(d.log)) + Identities(d.ready) == Identities(Admitted(d.log))
    ensures Identities(Finished(Serve(d).log)) + Identities(Serve(d).ready) == Identities(Admitted(Serve(d).log))
    ensures Identities(Finished(Serve(d).log)) == Identities(Finished(d.log)) + [d.ready[0].Identity()]
  {
    var e := CompletionEvent(d);
    var tail := d.ready[1..];
    var b := Serve(d);
    var hid := d.ready[0].Identity();
    assert b.ready == tail;
    CompletionProjections(d);
    assert d.ready == [d.ready[0]] + tail;
    IdentitiesConcat([d.ready[0]], tail);
    IdentitiesConcat(Finished(d.log), [e.p]);
    assert Identities([e.p]) == [hid];
    assert Identities([d.ready[0]]) == [hid];
    ConcatAssociates(Identities(Finished(d.log)), [hid], Identities(tail));
    calc {
      Identities(Finished(b.log)) + Identities(b.ready);
      (Identities(Finished(d.log)) + [hid]) + Identities(tail);
      Identities(Finished(d.log)) + ([hid] + Identities(tail));
      Identities(Finished(d.log)) + Identities(d.ready);
      Identities(Admitted(d.log));
      Identities(Admitted(b.log));
    }
  }

  lemma CompletionQueue(d: State)
    requires QueueOk(d) && d.ready != [] && d.ready[0].remaining == 1
    ensures QueueOk(Tick(Serve(d)))
  {
    var f := Tick(Serve(d));
    assert forall i :: 0 <= i < |f.ready| ==> f.ready[i] == d.ready[i + 1];
  }

  lemma CompletionClock(init: Stats, d: State)
    requires QueueOk(d) && AccountingOk(init, d) && d.ready != [] && d.ready[0].remaining == 1 && !d.switching
    ensures Switches(Serve(d).log) + (if Serve(d).switching then 1 else 0) == Serve(d).completed
    ensures Tick(Serve(d)).time
            == Served(Serve(d)) + Serve(d).idle + ContextSwitchTime * Switches(Serve(d).log)
               + (if Serve(d).switching then HalfSwitchTime else 0)
  {
    var e := CompletionEvent(d);
    CompletionProjections(d);
    SumBySnoc(Finished(d.log), e.p, BurstOf);
    assert Served(Serve(d)) == Served(d) + 1;
  }

  /** A head served for its last tick completes, and the switch is charged. */
  lemma ServeCompletes(input: seq<Process>, init: Stats, d: State)
    requires Core(input, init, d) && d.ready != [] && d.ready[0].accessed && !d.switching
    requires d.ready[0].remaining == 1
    ensures Inv(input, init, Tick(Serve(d)))
  {
    var f := Tick(Serve(d));
    CompletionQueue(d);
    CompletionOrder(input, d);
    CompletionLog(d);
    CompletionRecords(init, d);
    CompletionClock(init, d);
    assert QueueOk(f);
    assert OrderOk(input, f);
    assert LogOk(f.log);
    assert AccountingOk(init, f);
  }

  lemma ServeKeeps(input: seq<Process>, init: Stats, d: State)
    requires Core(input, init, d) && d.ready != [] && d.ready[0].accessed && !d.switching
    ensures Inv(input, init, Tick(Serve(d)))
  {
    if d.ready[0].remaining == 1 {
      ServeCompletes(input, init, d);
    } else {
      ServeContinues(input, init, d);
    }
  }

  // ---------------------------------------------------------------------
  // Whole iterations

  /** An idle tick is one more idle tick on the clock. */
  lemma IdleAccounting(init: Stats, a: State, f: State)
    requires AccountingOk(init, a) && a.ready == []
    requires f == a.(time := a.time + 1, idle := a.idle + 1)
    ensures AccountingOk(init, f)
  {
    assert Served(f) == Served(a);
  }

  lemma IdleKeeps(input: seq<Process>, init: Stats, a: State, f: State)
    requires Core(input, init, a) && a.ready == [] && (a.completed > 0 ==> a.switching)
    requires f == a.(time := a.time + 1, idle := a.idle + 1)
    ensures Inv(input, init, f)
  {
    assert QueueOk(f);
    assert OrderOk(input, f) by {
      assert f.log == a.log && f.ready == a.ready && f.pending == a.pending;
    }
    IdleAccounting(init, a, f);
  }

  /** The two shapes of an iteration: idle, or resume-dispatch-serve. */
  lemma StepShape(s: State)
    ensures Admit(s).ready == [] ==> Step(s) == Admit(s).(time := Admit(s).time + 1, idle := Admit(s).idle + 1)
    ensures Admit(s).ready != [] ==> Step(s) == Tick(Serve(Dispatch(Resume(Admit(s)))))
  {
  }

  /** What admission leaves when nothing is ready to run. */
  lemma IdleFacts(input: seq<Process>, init: Stats, s: State)
    requires Inv(input, init, s) && Admit(s).ready == []
    ensures Core(input, init, Admit(s))
    ensures Admit(s).completed > 0 ==> Admit(s).switching
  {
    AdmitKeeps(input, init, s);
    assert s.ready == [] by {
      assert |Admit(s).ready| == |s.ready| + |Partition(s.pending, s.time).admitted|;
    }
  }

  /** The idle iteration, from what admission leaves. */
  lemma IdleStepFrom(input: seq<Process>, init: Stats, s: State)
    requires Core(input, init, Admit(s)) && Admit(s).ready == []
    requires Admit(s).completed > 0 ==> Admit(s).switching
    ensures Inv(input, init, Step(s))
  {
    StepShape(s);
    IdleKeeps(input, init, Admit(s), Step(s));
  }

  lemma IdleStepKeeps(input: seq<Process>, init: Stats, s: State)
    requires Inv(input, init, s) && Admit(s).ready == []
    ensures Inv(input, init, Step(s))
  {
    IdleFacts(input, init, s);
    IdleStepFrom(input, init, s);
  }

  lemma BusyStepKeeps(input: seq<Process>, init: Stats, s: State)
    requires Inv(input, init, s) && Admit(s).ready != []
    ensures Inv(input, init, Tick(Serve(Dispatch(Resume(Admit(s))))))
  {
    var a := Admit(s);
    AdmitKeeps(input, init, s);
    ResumeKeeps(input, init, a);
    var r := Resume(a);
    DispatchKeeps(input, init, r);
    ServeKeeps(input, init, Dispatch(r));
  }

  /** One iteration of the loop keeps the invariant. */
  lemma StepKeeps(input: seq<Process>, init: Stats, s: State)
    requires Inv(input, init, s)
    ensures Inv(input, init, Step(s))
  {
    StepShape(s);
    if Admit(s).ready == [] {
      IdleStepKeeps(input, init, s);
    } else {
      BusyStepKeeps(input, init, s);
    }
  }

  lemma {:induction false} SumByNonNegative(s: seq<Process>, f: Process -> int)
    requires forall i :: 0 <= i < |s| ==> f(s[i]) >= 0
    ensures SumBy(s, f) >= 0
    decreases |s|
  {
    if s != [] {
      SumByNonNegative(s[..|s| - 1], f);
    }
  }

  lemma WorkNonNegative(s: State)
    requires QueueOk(s)
    ensures Work(s) >= 0
  {
    SumByNonNegative(s.pending, RemainingOf);
    SumByNonNegative(s.ready, RemainingOf);
  }

  /** Serving the head removes exactly one tick of remaining work. */
  lemma ServeWork(d: State)
    requires d.ready != []
    ensures Work(Tick(Serve(d))) == Work(d) - 1
  {
    var h := d.ready[0];
    var tail := d.ready[1..];
    assert d.ready == [h] + tail;
    SumByCons(h, tail, RemainingOf);
    if h.remaining != 1 {
      SumByCons(Decrement(h), tail, RemainingOf);
    }
  }

  lemma DispatchWork(r: State)
    requires r.ready != []
    ensures Work(Dispatch(r)) == Work(r)
  {
    var h := r.ready[0];
    var tail := r.ready[1..];
    if !h.accessed {
      assert r.ready == [h] + tail;
      SumByCons(h, tail, RemainingOf);
      SumByCons(MarkAccessed(h, r.time - h.arrival), tail, RemainingOf);
    }
  }

  /** An idle iteration leaves the work alone and gets one tick closer to the next arrival. */
  lemma IdleProgress(s: State)
    requires Admit(s).ready == [] && (s.pending != [] || s.ready != [])
    ensures Work(Step(s)) == Work(s) && Gap(Step(s)) < Gap(s)
  {
    StepShape(s);
    AdmitWork(s);
    AdmitIdle(s);
    assert s.pending[0].arrival > s.time;
  }

  /** A busy iteration serves one tick of remaining work. */
  lemma BusyProgress(s: State)
    requires Admit(s).ready != []
    ensures Work(Step(s)) == Work(s) - 1
  {
    StepShape(s);
    var a := Admit(s);
    AdmitWork(s);
    var r := Resume(a);
    assert Work(r) == Work(a);
    DispatchWork(r);
    ServeWork(Dispatch(r));
  }

  /**
   * Every iteration of an unfinished run either consumes a tick of
   * remaining work, or (the queue being empty) moves time one tick closer
   * to the next arrival.
   */
  lemma StepProgress(s: State)
    requires s.pending != [] || s.ready != []
    ensures Work(Step(s)) < Work(s) || (Work(Step(s)) == Work(s) && Gap(Step(s)) < Gap(s))
  {
    if Admit(s).ready == [] {
      IdleProgress(s);
    } else {
      BusyProgress(s);
    }
  }

  /** A finished run has emptied both lists, and served exactly the input's bursts. */
  lemma Finish(input: seq<Process>, init: Stats, s: State)
    requires Inv(input, init, s) && s.completed == |input|
    ensures s.pending == [] && s.ready == []
    ensures Identities(Finished(s.log)) == Identities(Admitted(s.log))
    ensures multiset(Admitted(s.log)) == multiset(input)
    ensures SumBy(Finished(s.log), BurstOf) == SumBy(input, BurstOf)
    ensures |input| > 0 ==> s.switching
  {
    assert |Identities(Finished(s.log))| + |Identities(s.ready)| == |Identities(Admitted(s.log))|;
    assert s.ready == [];
    assert Identities(s.ready) == [];
    assert Identities(Finished(s.log)) + [] == Identities(Finished(s.log));
    SumOfBurstsByIdentity(Finished(s.log), Admitted(s.log));
    SumByPermutation(Admitted(s.log), input, BurstOf);
  }
}
