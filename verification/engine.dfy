/**
 * The single-CPU First-Come-First-Serve engine (`firstComeFirstServe`): a
 * time-stepped state machine whose every iteration admits arrivals,
 * charges the resume half of a context switch, marks a first dispatch,
 * serves the head of the ready queue for one tick and handles completion.
 */
module Engine {
  import opened Processes
  import opened Statistics
  import opened Admission
  import opened Events

  /** Charged when one process completes and another is waiting. */
  const ContextSwitchTime := 14

  /** Charged when the queue runs empty, and again when it next fills. */
  const HalfSwitchTime := 7

  /**
   * The loop's variables plus the global statistics. `log` holds the event
   * lines printed so far; `idle` counts iterations that found the ready
   * queue empty (an observer only: the engine never reads it).
   */
  datatype State = State(
    pending: seq<Process>,
    ready: seq<Process>,
    time: int,
    completed: nat,
    switching: bool,
    lastId: int,
    stats: Stats,
    log: seq<Event>,
    idle: nat)

  /** The loop's starting point for a workload and the current statistics. */
  function Start(processes: seq<Process>, stats: Stats): State {
    State(processes, [], 0, 0, false, 0, stats, [], 0)
  }

  /** Admission: arrived processes move, in order, to the tail of the ready queue. */
  function Admit(s: State): State {
    var split := Partition(s.pending, s.time);
    s.(pending := split.rest,
       ready := s.ready + split.admitted,
       log := s.log + CreatedEvents(split.admitted))
  }

  /** The second half of a switch whose first half was charged when the queue emptied. */
  function Resume(s: State): (r: State)
    requires s.ready != []
    ensures r.ready == s.ready
  {
    if s.switching then
      s.(log := s.log + [ContextSwitch(s.time - HalfSwitchTime, s.lastId, s.ready[0].id)],
         time := s.time + HalfSwitchTime,
         switching := false)
    else s
  }

  /** First dispatch of the head: records its initial waiting time. */
  function Dispatch(s: State): (r: State)
    requires s.ready != []
    ensures |r.ready| == |s.ready|
  {
    var head := s.ready[0];
    if head.accessed then s
    else
      var wait := s.time - head.arrival;
      var marked := MarkAccessed(head, wait);
      s.(ready := [marked] + s.ready[1..],
         stats := RecordInitialWait(s.stats, wait),
         log := s.log + [Accessed(s.time, marked)])
  }

  /** One tick of service on the head, then completion and switch charging. */
  function Serve(s: State): State
    requires s.ready != []
  {
    var head := Decrement(s.ready[0]);
    if head.remaining != 0 then s.(ready := [head] + s.ready[1..])
    else
      var turnaround := s.time + 1 - head.arrival;
      var wait := turnaround - head.burst;
      var rest := s.ready[1..];
      var done := s.(ready := rest,
                     completed := s.completed + 1,
                     lastId := head.id,
                     stats := RecordCompletion(s.stats, turnaround, wait),
                     log := s.log + [Completed(s.time + 1, head, turnaround, wait)]);
      if rest != [] then
        done.(log := done.log + [ContextSwitch(s.time + 1, head.id, rest[0].id)],
              time := s.time + ContextSwitchTime)
      else
        done.(switching := true, time := s.time + HalfSwitchTime)
  }

  /** One iteration of the loop, ending with `currentTime++`. */
  function Step(s: State): State {
    var a := Admit(s);
    if a.ready == [] then a.(time := a.time + 1, idle := a.idle + 1)
    else
      var b := Serve(Dispatch(Resume(a)));
      b.(time := b.time + 1)
  }

  // ---------------------------------------------------------------------
  // What the loop maintains

  /** The CPU ticks spent serving: finished bursts plus the head's service so far. */
  function Served(s: State): int {
    SumBy(Finished(s.log), BurstOf)
    + (if s.ready == [] then 0 else s.ready[0].burst - s.ready[0].remaining)
  }

  /** The statistics obtained by recording, from `init`, every value the log reports. */
  function Replay(init: Stats, log: seq<Event>): Stats {
    Stats(AddAll(init.turnaround, Turnarounds(log)),
          AddAll(init.wait, Waits(log)),
          AddAll(init.initialWait, InitialWaits(log)))
  }

  /**
   * What each logged event reports: a creation carries the untouched record
   * at its arrival time; a first access waited `at - arrival >= 0`; a
   * completion reports turnaround `at - arrival` and total wait
   * `turnaround - burst`, which is non-negative and equal to the initial
   * wait, so the turnaround is at least the (positive) burst.
   */
  predicate EventOk(e: Event) {
    match e
    case Created(at, p) => at == p.arrival && Fresh(p)
    case Accessed(at, p) => p.accessed && p.initialWait == at - p.arrival && p.initialWait >= 0
    case ContextSwitch(_, _, _) => true
    case Completed(at, p, turnaround, wait) =>
      && p.remaining == 0 && p.accessed && p.burst >= 1
      && turnaround == at - p.arrival
      && wait == turnaround - p.burst
      && wait == p.initialWait && wait >= 0
  }

  ghost predicate LogOk(log: seq<Event>) {
    forall i :: 0 <= i < |log| ==> EventOk(log[i])
  }

  /** The records in the queues: untouched except the head, which is timed by its service. */
  ghost predicate QueueOk(s: State) {
    && (forall i :: 0 <= i < |s.pending| ==> Fresh(s.pending[i]) && s.pending[i].burst >= 1)
    && (forall i :: 0 <= i < |s.ready| ==>
          s.ready[i].arrival <= s.time && 1 <= s.ready[i].remaining <= s.ready[i].burst)
    && (forall i :: 1 <= i < |s.ready| ==> Fresh(s.ready[i]))
    && (s.ready != [] ==>
          var h := s.ready[0];
          if h.accessed then
            && h.initialWait >= 0 && h.totalWait == h.initialWait
            && s.time == h.arrival + h.initialWait + (h.burst - h.remaining)
          else Fresh(h))
  }

  /**
   * Order: everything admitted has either completed, in admission order,
   * or is in the ready queue in that same order; admitted and pending
   * records together are the input; each completed process was dispatched
   * exactly once, in the same order.
   */
  ghost predicate OrderOk(input: seq<Process>, s: State) {
    && Identities(Finished(s.log)) + Identities(s.ready) == Identities(Admitted(s.log))
    && multiset(Admitted(s.log)) + multiset(s.pending) == multiset(input)
    && |Admitted(s.log)| + |s.pending| == |input|
    && (SortedByArrival(input) ==> Admitted(s.log) + s.pending == input)
    && s.completed == |Finished(s.log)|
    && Identities(Dispatched(s.log))
       == Identities(Finished(s.log))
          + (if s.ready != [] && s.ready[0].accessed then [s.ready[0].Identity()] else [])
  }

  /**
   * Accounting: the statistics replay the log; every completion but a
   * pending one is followed by one logged switch; and the clock is the
   * service ticks plus idle ticks plus 14 per logged switch, plus 7 while
   * a switch is half done.
   */
  ghost predicate AccountingOk(init: Stats, s: State) {
    && s.stats == Replay(init, s.log)
    && Switches(s.log) + (if s.switching then 1 else 0) == s.completed
    && s.time == Served(s) + s.idle + ContextSwitchTime * Switches(s.log)
                 + (if s.switching then HalfSwitchTime else 0)
  }

  ghost predicate Core(input: seq<Process>, init: Stats, s: State) {
    QueueOk(s) && OrderOk(input, s) && LogOk(s.log) && AccountingOk(init, s)
  }

  /** The loop invariant: a half-done switch means the queue is empty, and vice versa once anything completed. */
  ghost predicate Inv(input: seq<Process>, init: Stats, s: State) {
    && Core(input, init, s)
    && (s.switching ==> s.ready == [])
    && (s.ready == [] && s.completed > 0 ==> s.switching)
  }

  /**
   * FCFS never takes the CPU back from a dispatched process, so the waits
   * reported at completion are the initial waits recorded at dispatch, in
   * the same order; the running head's initial wait is not yet reported.
   */
  ghost predicate WaitsOk(s: State) {
    InitialWaits(s.log)
    == Waits(s.log) + (if s.ready != [] && s.ready[0].accessed then [s.ready[0].initialWait] else [])
  }

  /** Remaining CPU demand of everything not yet completed. */
  function Work(s: State): int {
    SumBy(s.pending, RemainingOf) + SumBy(s.ready, RemainingOf)
  }

  /** Ticks until the first pending process arrives (0 when it already has). */
  function Gap(s: State): nat {
    if s.pending != [] && s.pending[0].arrival > s.time then s.pending[0].arrival - s.time else 0
  }
}
