/**
 * What each phase of a loop iteration does to the engine state, stated
 * apart from the phase functions so that the invariant proofs do not
 * carry these facts around.
 */
module Phases {
  import opened Processes
  import opened Admission
  import opened Engine

  /**
   * Admission only appends to the ready queue, and only records that have
   * arrived by now; whatever stays pending arrives later; no record is lost
   * or duplicated; nothing else the loop tracks changes.
   */
  lemma AdmitEffect(s: State)
    ensures var a := Admit(s);
            && |s.ready| <= |a.ready| && a.ready[..|s.ready|] == s.ready
            && (forall i :: |s.ready| <= i < |a.ready| ==> a.ready[i].arrival <= s.time)
            && (forall i :: 0 <= i < |a.pending| ==> a.pending[i].arrival > s.time)
            && multiset(a.ready) + multiset(a.pending) == multiset(s.ready) + multiset(s.pending)
            && |a.ready| + |a.pending| == |s.ready| + |s.pending|
            && a.time == s.time && a.completed == s.completed && a.switching == s.switching
            && a.stats == s.stats && a.idle == s.idle
  {
    var split := Partition(s.pending, s.time);
    var a := Admit(s);
    assert a.ready[..|s.ready|] == s.ready;
    forall i | |s.ready| <= i < |a.ready|
      ensures a.ready[i].arrival <= s.time
    {
      assert a.ready[i] == split.admitted[i - |s.ready|];
    }
    assert |multiset(a.ready) + multiset(a.pending)| == |multiset(s.ready) + multiset(s.pending)|;
  }

  /**
   * The resume charge adds the second 7 ms exactly when a half switch is
   * pending, and always leaves the flag cleared; the lists, the completion
   * count and the statistics are unchanged.
   */
  lemma ResumeEffect(s: State)
    requires s.ready != []
    ensures var r := Resume(s);
            && !r.switching && r.time == s.time + (if s.switching then HalfSwitchTime else 0)
            && r.ready == s.ready && r.pending == s.pending
            && r.completed == s.completed && r.stats == s.stats && r.idle == s.idle
  {
  }

  /**
   * After dispatch the head has been on the CPU; a head that had not gets
   * the initial wait `time - arrival`. The head keeps its profile and
   * remaining burst, and nothing else in the queue, nor the clock, changes.
   */
  lemma DispatchEffect(s: State)
    requires s.ready != []
    ensures var d := Dispatch(s);
            && |d.ready| == |s.ready| && d.ready[0].accessed && d.ready[1..] == s.ready[1..]
            && d.ready[0].Identity() == s.ready[0].Identity()
            && d.ready[0].remaining == s.ready[0].remaining
            && (!s.ready[0].accessed ==> d.ready[0].initialWait == s.time - s.ready[0].arrival)
            && (s.ready[0].accessed ==> d == s)
            && d.pending == s.pending && d.time == s.time && d.completed == s.completed
            && d.switching == s.switching && d.idle == s.idle
  {
  }

  /**
   * One tick of service completes the head exactly when its remaining
   * burst was 1. Otherwise the head loses one unit and nothing else
   * changes. A completion removes the head, remembers it as the last
   * process and charges 14 ms when a successor waits, or 7 ms and a pending
   * half switch when none does.
   */
  lemma ServeEffect(s: State)
    requires s.ready != []
    ensures var r := Serve(s);
            && r.completed == s.completed + (if s.ready[0].remaining == 1 then 1 else 0)
            && r.pending == s.pending && r.idle == s.idle
            && (s.ready[0].remaining != 1 ==>
                  && |r.ready| == |s.ready| && r.ready[1..] == s.ready[1..]
                  && r.ready[0].Identity() == s.ready[0].Identity()
                  && r.ready[0].remaining == s.ready[0].remaining - 1
                  && r.time == s.time && r.stats == s.stats && r.log == s.log)
            && (s.ready[0].remaining == 1 ==>
                  && r.ready == s.ready[1..] && r.lastId == s.ready[0].id
                  && r.time == s.time + (if r.ready != [] then ContextSwitchTime else HalfSwitchTime)
                  && r.switching == (s.switching || r.ready == []))
  {
  }

  /**
   * Every iteration moves the clock forward, completes at most one process
   * and never adds pending records. It counts an idle tick exactly when the
   * queue was empty and nothing arrived.
   */
  lemma StepEffect(s: State)
    ensures var r := Step(s);
            && r.time > s.time
            && s.completed <= r.completed <= s.completed + 1
            && |r.pending| <= |s.pending|
            && r.idle == s.idle + (if s.ready == [] && |r.pending| == |s.pending| then 1 else 0)
  {
    AdmitEffect(s);
    var a := Admit(s);
    if a.ready != [] {
      ResumeEffect(a);
      DispatchEffect(Resume(a));
      ServeEffect(Dispatch(Resume(a)));
    }
  }
}
