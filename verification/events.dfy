/**
 * The engine's event log as data: one value per line the simulator prints
 * during a run (creation, first access, context switch, completion),
 * carrying the numbers that line reports. Text formatting is not modelled.
 */
module Events {
  import opened Processes

  datatype Event =
      /** A process entered the ready queue; stamped with its arrival time. */
    | Created(at: int, p: Process)
      /** First dispatch; `p` is the record after `markAsAccessed`. */
    | Accessed(at: int, p: Process)
      /** The CPU passes from process `outgoing` to process `incoming`. */
    | ContextSwitch(at: int, outgoing: int, incoming: int)
      /** A process finished; `p` is its record with nothing left to run. */
    | Completed(at: int, p: Process, turnaround: int, totalWait: int)

  /** The records admitted, in admission order. */
  function Admitted(log: seq<Event>): seq<Process>
    decreases |log|
  {
    if log == [] then []
    else
      var e := log[|log| - 1];
      Admitted(log[..|log| - 1]) + (if e.Created? then [e.p] else [])
  }

  /** The records at their first dispatch, in dispatch order. */
  function Dispatched(log: seq<Event>): seq<Process>
    decreases |log|
  {
    if log == [] then []
    else
      var e := log[|log| - 1];
      Dispatched(log[..|log| - 1]) + (if e.Accessed? then [e.p] else [])
  }

  /** The completed records, in completion order. */
  function Finished(log: seq<Event>): seq<Process>
    decreases |log|
  {
    if log == [] then []
    else
      var e := log[|log| - 1];
      Finished(log[..|log| - 1]) + (if e.Completed? then [e.p] else [])
  }

  /** The reported turnaround times, in completion order. */
  function Turnarounds(log: seq<Event>): seq<int>
    decreases |log|
  {
    if log == [] then []
    else
      var e := log[|log| - 1];
      Turnarounds(log[..|log| - 1]) + (if e.Completed? then [e.turnaround] else [])
  }

  /** The reported total waiting times, in completion order. */
  function Waits(log: seq<Event>): seq<int>
    decreases |log|
  {
    if log == [] then []
    else
      var e := log[|log| - 1];
      Waits(log[..|log| - 1]) + (if e.Completed? then [e.totalWait] else [])
  }

  /** The recorded initial waiting times, in dispatch order. */
  function InitialWaits(log: seq<Event>): seq<int>
    decreases |log|
  {
    if log == [] then []
    else
      var e := log[|log| - 1];
      InitialWaits(log[..|log| - 1]) + (if e.Accessed? then [e.p.initialWait] else [])
  }

  /** The number of context switches reported. */
  function Switches(log: seq<Event>): nat
    decreases |log|
  {
    if log == [] then 0
    else Switches(log[..|log| - 1]) + (if log[|log| - 1].ContextSwitch? then 1 else 0)
  }

  /** How every projection of the log grows when one event is appended. */
  lemma AppendEvent(log: seq<Event>, e: Event)
    ensures Admitted(log + [e]) == Admitted(log) + (if e.Created? then [e.p] else [])
    ensures Dispatched(log + [e]) == Dispatched(log) + (if e.Accessed? then [e.p] else [])
    ensures Finished(log + [e]) == Finished(log) + (if e.Completed? then [e.p] else [])
    ensures Turnarounds(log + [e]) == Turnarounds(log) + (if e.Completed? then [e.turnaround] else [])
    ensures Waits(log + [e]) == Waits(log) + (if e.Completed? then [e.totalWait] else [])
    ensures InitialWaits(log + [e]) == InitialWaits(log) + (if e.Accessed? then [e.p.initialWait] else [])
    ensures Switches(log + [e]) == Switches(log) + (if e.ContextSwitch? then 1 else 0)
  {
    assert (log + [e])[..|log|] == log;
  }

  /** The creation lines for a batch of admitted records (stamped with arrival). */
  function CreatedEvents(ps: seq<Process>): (r: seq<Event>)
    ensures |r| == |ps|
    ensures forall i :: 0 <= i < |ps| ==> r[i] == Created(ps[i].arrival, ps[i])
  {
    seq(|ps|, i requires 0 <= i < |ps| => Created(ps[i].arrival, ps[i]))
  }

  /** Creation lines add to the admissions and to nothing else. */
  lemma {:induction false} AppendCreated(log: seq<Event>, ps: seq<Process>)
    ensures Admitted(log + CreatedEvents(ps)) == Admitted(log) + ps
    ensures Dispatched(log + CreatedEvents(ps)) == Dispatched(log)
    ensures Finished(log + CreatedEvents(ps)) == Finished(log)
    ensures Turnarounds(log + CreatedEvents(ps)) == Turnarounds(log)
    ensures Waits(log + CreatedEvents(ps)) == Waits(log)
    ensures InitialWaits(log + CreatedEvents(ps)) == InitialWaits(log)
    ensures Switches(log + CreatedEvents(ps)) == Switches(log)
    decreases |ps|
  {
    if ps != [] {
      var init := ps[..|ps| - 1];
      var p := ps[|ps| - 1];
      assert ps == init + [p];
      assert CreatedEvents(ps) == CreatedEvents(init) + [Created(p.arrival, p)];
      assert log + CreatedEvents(ps) == (log + CreatedEvents(init)) + [Created(p.arrival, p)];
      AppendCreated(log, init);
      AppendEvent(log + CreatedEvents(init), Created(p.arrival, p));
    } else {
      assert log + CreatedEvents(ps) == log;
    }
  }
}
