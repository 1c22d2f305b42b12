# FCFS CPU-scheduling simulator, modelled in Dafny

The simulator replays, millisecond by millisecond, how a single CPU serves
a workload of processes under First-Come-First-Serve. Each process has an
arrival time, a CPU burst and a priority. Every iteration of the loop does
four things, in order:

1. **Admission.** It admits every pending process whose arrival time has
   passed.
2. **Resume charge.** If the ready queue just refilled after running empty,
   it charges the second 7 ms half of a context switch.
3. **First dispatch.** If the head of the queue has never run, it records
   the head's initial wait.
4. **Service.** It serves the head for one millisecond. On completion it
   records the turnaround and total wait. It then charges 14 ms if another
   process is waiting, or the first 7 ms half of a switch if none is.

The program accumulates three metrics: turnaround, total wait and initial
wait. For each it keeps a total, a minimum and a maximum. `main` sorts the
generated workload by arrival, renumbers it 1..N, runs FCFS, reports, and
resets the metrics for the next policy.

The model is pure and functional:

- `processes.dfy` holds the process record and its mutators.
- `statistics.dfy` holds the metric accumulator.
- `admission.dfy` holds the admission scan, both as a stable partition
  and as the erase-while-iterating loop.
- `normalisation.dfy` holds the sort and the renumbering.
- `events.dfy` holds the printed event lines, as data.
- `engine.dfy` holds one loop iteration (`Step`) and the loop invariant.
- `phases.dfy` states what each phase of an iteration does to the state.
- `invariants.dfy` and `waits.dfy` prove the invariant is kept and the
  loop makes progress.
- `scheduler.dfy` holds the loop itself and `main`'s sequence.

The model adds two observers that the program does not keep:

- `log` is the sequence of printed events.
- `idle` counts iterations that found the queue empty.

Neither one influences the behaviour.

Switch time is charged only around completions. The program charges 14 ms
after every completion that leaves the queue non-empty. It charges 7 ms
whenever a completion empties the queue, the very last completion
included, and another 7 ms when the queue next refills. The model keeps
exactly these charges.

The workload is sorted with `std::sort`, which is not stable. So the model
claims only that the normalised list is some sorted permutation, relabelled
1..N.

## Model

| member | source | states |
|---|---|---|
| Processes.New | 186_195.cpp:55-64 | A new record carries the given arrival, burst, priority and id. It starts with remaining burst equal to its burst, not accessed, and both waits 0. |
| Processes.Decrement | 186_195.cpp:90-92 | One tick lowers the remaining burst by exactly one. The profile, the accessed flag and both waits are unchanged. |
| Processes.MarkAccessed | 186_195.cpp:102-106 | The first access sets the accessed flag and records the wait as both the initial and the total wait. Profile and remaining burst are untouched. |
| Processes.WithId | 186_195.cpp:70-72 | Setting the id changes only the id. |
| Processes.SortedByComparator | 186_195.cpp:125-127 | Sorted under `compareByArrivalTime` means no record arrives strictly before its predecessor. That holds if and only if arrival times never decrease over the list. |
| Statistics.AddAll | 186_195.cpp:219-224 | Recording a sequence of values adds their sum to the total. The minimum ends at or below the start value and every recorded value, and is the start value or one of them. The maximum is the mirror image. |
| Statistics.RecordInitialWait | 186_195.cpp:205-207 | A first access updates the initial-wait metric only. |
| Statistics.RecordCompletion | 186_195.cpp:219-224 | A completion updates the turnaround and total-wait metrics and leaves the initial-wait metric alone. |
| Statistics.Initial | 186_195.cpp:17-25 | At start-up every total and maximum is 0 and every minimum is the 5000 sentinel. |
| Statistics.Reset | 186_195.cpp:162-170 | After a report every total and maximum is 0 and every minimum is 5000 times the process count. |
| Statistics.AfterReset | 186_195.cpp:162-170 | After a reset, recording non-negative values gives their sum as the total and one of them as the maximum. The minimum stays at or below the sentinel, and is a recorded value whenever one is at or below the sentinel. |
| Admission.Partition | 186_195.cpp:185-193 | Admission splits the pending list into the arrived records (arrival <= now) and the rest (arrival > now). Together the two halves are a permutation of the list. |
| Admission.PartitionKeepsOrder | 186_195.cpp:185-193 | Both halves keep the pending list's relative order, so the partition is stable. |
| Admission.SortedPartitionIsSplit | 186_195.cpp:185-193 | On a list sorted by arrival, the arrived records are exactly a prefix and the rest is the matching suffix. |
| Admission.NothingArrived | 186_195.cpp:185-193 | When every pending record arrives after now, admission admits nothing and leaves the pending list as it was. |
| Admission.AdmitScan | 186_195.cpp:185-193 | The erase-while-iterating loop appends exactly the arrived records, in order, to the ready queue. It leaves exactly the others pending. |
| Normalisation.SortByArrival | 186_195.cpp:273 | The sort returns a permutation of its input that is ordered by arrival. |
| Normalisation.Relabel | 186_195.cpp:276-278 | The renumbering gives the record at position i the id i + 1 and changes nothing else. |
| Normalisation.NormaliseSpec | 186_195.cpp:273-278 | The normalised workload is a sorted permutation of the generated one, relabelled 1..N. It is ordered by arrival, and fresh records with positive bursts stay so. |
| Phases.AdmitEffect | 186_195.cpp:185-193 | Admission (`Engine.Admit`) only appends to the ready queue, and only records that have arrived by now. Every record left pending arrives later. Records are neither lost nor duplicated between the two lists, and the clock, completion count, switch flag and statistics are unchanged. |
| Phases.ResumeEffect | 186_195.cpp:196-200 | The resume charge (`Engine.Resume`) adds 7 ms to the clock exactly when a half switch is pending, and always leaves the flag cleared. Both lists, the completion count and the statistics are unchanged. |
| Phases.DispatchEffect | 186_195.cpp:202-209 | After dispatch (`Engine.Dispatch`) the head is marked accessed; a head not yet accessed gets initial wait `time - arrival`, and an accessed head leaves the state as it was. The head keeps its profile and remaining burst; the rest of the queue, the pending list and the clock are unchanged. |
| Phases.ServeEffect | 186_195.cpp:211-235 | A tick of service (`Engine.Serve`) completes the head exactly when its remaining burst was 1. Otherwise the head loses one unit and the rest of the queue, the clock, the statistics and the log are untouched. A completion removes the head and records it as the last process. It then charges 14 ms when a process is waiting, or 7 ms and a pending half switch when none is. |
| Phases.StepEffect | 186_195.cpp:183-239 | Every iteration (`Engine.Step`) moves the clock forward, completes at most one process and never adds pending records. It counts an idle tick exactly when the queue was empty and nothing arrived. |
| EngineProofs.ServiceBounds | 186_195.cpp:211-213 | In every state the loop reaches, each queued record has 1 <= remaining <= burst. Records behind the head are unserved. The head, once dispatched, has lost exactly one unit per millisecond since its first dispatch. |
| EngineProofs.StartInv | 186_195.cpp:177-181 | The loop's initial state (time 0, nothing completed, no switch pending) satisfies the loop invariant. |
| EngineProofs.AdmitKeeps | 186_195.cpp:185-193 | Admission keeps the invariant. It changes neither the completion count nor the switch flag. While a half switch is pending, the queue it refills starts with a fresh record. |
| EngineProofs.ResumeKeeps | 186_195.cpp:196-200 | The resume charge keeps the invariant, which includes the clock identity. The half switch becomes a full logged switch for the other 7 ms, and the flag is cleared. |
| EngineProofs.ResumeAccounting | 186_195.cpp:196-200 | The resume charge keeps the accounting. The statistics still replay the log, and the switch count plus the pending half switch still equals the completion count. The 7 ms added to the clock completes the 14 ms of the switch now logged. |
| EngineProofs.ResumeProjections | 186_195.cpp:196-200 | The resume charge logs exactly one context switch and nothing else. |
| EngineProofs.DispatchKeeps | 186_195.cpp:202-209 | First dispatch keeps the invariant and leaves the head accessed. Its recorded wait is `time - arrival`, which is >= 0. |
| EngineProofs.DispatchRecords | 186_195.cpp:203-207 | After a first dispatch, the statistics are still exactly the replay of the log. The initial wait added to the metric is the one the access line reports. |
| EngineProofs.DispatchAccounting | 186_195.cpp:202-209 | A first dispatch costs no time. It keeps the accounting: the statistics still replay the log, and the switch count and the clock identity still hold. |
| EngineProofs.DispatchIdentities | 186_195.cpp:202-209 | A first dispatch adds exactly the head to the dispatch order. So each process is dispatched at most once. |
| EngineProofs.CompletionLog | 186_195.cpp:213-216 | The completion line reports turnaround `time + 1 - arrival` and total wait `turnaround - burst`. The wait equals the process's initial wait and is >= 0, and the turnaround is at least the burst. |
| EngineProofs.CompletionRecords | 186_195.cpp:214-224 | After a completion, the statistics are still exactly the replay of the log. The turnaround and total wait added to the metrics are the ones the completion line reports. |
| EngineProofs.CompletionIdentities | 186_195.cpp:226-227 | A completion moves exactly the head from the ready queue to the end of the completion order. |
| EngineProofs.CompletionClock | 186_195.cpp:229-235 | A completion is followed by one logged 14 ms switch when a process is waiting. Otherwise it leaves a pending 7 ms half switch. In both cases the clock identity is kept. |
| EngineProofs.ServeKeeps | 186_195.cpp:211-235 | One tick of service, with completion handling, keeps the invariant. |
| EngineProofs.ServeWork | 186_195.cpp:211 | Serving the head removes exactly one millisecond of outstanding CPU demand. |
| EngineProofs.StepKeeps | 186_195.cpp:183-239 | One loop iteration keeps the invariant. The invariant covers queue contents, admission and completion order, event formulas, statistics replay and the clock identity. |
| EngineProofs.StepProgress | 186_195.cpp:183-239 | An iteration of an unfinished run consumes one millisecond of CPU demand. When the queue is empty, it instead moves time one tick closer to the next arrival. |
| EngineProofs.Finish | 186_195.cpp:183 | When the completion count reaches N, both lists are empty. Exactly the input was admitted, and the bursts served are the input's bursts. |
| WaitProofs.StepWaits | 186_195.cpp:202-235 | Each iteration keeps the waits reported at completion equal to the initial waits recorded at dispatch, in order. |
| WaitProofs.DrainedWaits | 186_195.cpp:205-220 | Once the queue is empty, the two wait lists coincide. The total-wait and initial-wait totals have grown by the same amount. |
| Scheduler.Iteration | 186_195.cpp:183-239 | An iteration of an unfinished run keeps the invariant and lowers the termination measure (work, then gap to the next arrival). |
| Scheduler.Outcome | 186_195.cpp:176-240 | Once the completion count reaches N, both lists are empty and the completion order equals the admission order and the dispatch order. For a sorted input, that order is the input order. The event formulas hold, the statistics replay the log, and total waits equal initial waits. There are N - 1 full switches, and the clock equals total burst + idle ticks + 14 * (N - 1) + 7. |
| Scheduler.FirstComeFirstServe | 186_195.cpp:176-240 | The loop terminates with all N completed and both lists empty. Every input record was created, dispatched once and completed once. Completions follow admission order, which is the input order for a sorted input. Every logged value obeys the turnaround and wait formulas, and total waits equal initial waits. The statistics replay the log. There are N - 1 full switches, and the clock ends at total burst + idle ticks + 14 * (N - 1) + 7. |
| Scheduler.Simulate | 186_195.cpp:273-283 | Processes complete with ids 1, 2, ..., N in that order. Each completed record is a relabelled record of a sorted permutation of the generated workload. The reported totals are the sums of the logged values, and the total wait equals the total initial wait. The statistics are then reset. |

## Left out

- Workload generation is not modelled: random bursts, priorities and exponentially distributed arrivals with floating-point resampling. `Simulate` takes the generated records as a parameter.
- Console output is not modelled. Event lines are kept as `Event` values carrying the printed numbers; text formatting and `printf` precision are dropped.
- The averages in `printStatistics` are not modelled. They are floating-point divisions of the totals; the model keeps the integer totals, minima and maxima, because only integers are ever recorded.
- The SJF, SRTF, Round Robin and Priority policies, `TIME_SLICE`, `compareByBurstTime` and `compareByPriority` are not modelled. The program does not implement or call those policies.
- `setArrivalTime` is not modelled. Nothing calls it.
- Normalisation.SortByArrival: the order of records with equal arrival times after `std::sort` is unspecified. The model picks one sorted permutation, and every property is stated for an arbitrary one.
- Scheduler.FirstComeFirstServe: requires `numProcesses` to equal the workload size, as in `main`. With a larger count the program never stops; with a smaller one it stops early.
- Scheduler.FirstComeFirstServe: requires every burst to be at least 1, as generation guarantees. A zero burst would be decremented to -1 and never complete.
- Scheduler.FirstComeFirstServe: integers are unbounded. The program's 32-bit `int` clock cannot overflow for generated workloads, since arrivals are at most 8000 ms and bursts below 4000 ms. The model does not state that bound.
