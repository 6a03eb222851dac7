# Intrusion-resistant process manager: the core in Dafny

This project models the decision-making core of a small process-management
layer: a scheduler, an intrusion detector and a mitigation dispatcher. It models
the following parts of the repository:

- **`NativeCore`** (`native_core.dfy`). The interpreted fallbacks of the four
  numeric routines of the native acceleration layer:
  - pick the pid of least priority that still has work;
  - pick the next index with work in round-robin order;
  - age priorities by waiting time;
  - flag entries whose CPU or memory usage is over a threshold.

  Each is a loop over parallel integer lists, proved against declarative
  specifications.
- **`Scheduling`** (`scheduler.dfy`). The process simulator.
  - `Process` is a class whose remaining time and CPU usage are updated in
    place.
  - `Scheduler` holds a list of processes. `RoundRobin` runs a FIFO copy of
    that list one quantum at a time. `PriorityScheduling` stable-sorts the
    list itself by (priority, arrival time) and then runs each entry once.
  - `SortByKey`, `Charged` and `Finish` are pure functions. They model,
    respectively, the stable sort, the CPU charged per occurrence and the
    simulated clock. Lemmas about them state stability, permutation and
    monotonicity.
- **`Detection`** (`detection.dfy`). The intrusion filter. It keeps each
  process record whose CPU usage, memory usage, creation rate or waiting time
  is over its limit (80, 80, 5 and 30). The method's loop is proved equal to a
  filter function. Lemmas prove that the result is a subsequence of the input,
  that it has exact per-record counts, and that each limit is strict.
- **`Mitigation`** (`mitigation.dfy`). The dispatch of threat reports:
  - "high" becomes a terminate call;
  - "medium" becomes a throttle call;
  - anything else is ignored.

  The two actions are empty in the source, so each call is recorded as one
  entry of an action log.

A list may hold the same `Process` object twice, because `add_process` does
not prevent it. So every scheduler contract is stated per object, through the
number of times the object occurs (`Charged`, `multiset(...)[p]`).

## Model

| member | source | states |
|---|---|---|
| NativeCore.ScheduleNextPriority | intrusion-resistant-pms-phase2/src/simulator/native_core.py:42-60 | -1 when no entry has work left and a priority below 10**9 (this includes the empty list); otherwise the pid at an index with work left, whose priority is least among all entries with work left and strictly less than every earlier one (lowest index wins ties) |
| NativeCore.PriorityChoiceUnique | intrusion-resistant-pms-phase2/src/simulator/native_core.py:52-60 | the index the priority pick selects is unique |
| NativeCore.RrStart | intrusion-resistant-pms-phase2/src/simulator/native_core.py:72 | the scan starts inside [0, n): at last_index + 1, and wraps to 0 after the last index (last_index = -1 starts at 0) |
| NativeCore.Cyclic | intrusion-resistant-pms-phase2/src/simulator/native_core.py:74 | the index visited at step k of the scan is always in [0, n): start + k while that is below n, and start + k − n once it runs past the end |
| NativeCore.CyclicDistinct | intrusion-resistant-pms-phase2/src/simulator/native_core.py:73-74 | the first n steps of the scan from a valid start visit n different indices, so no index is tested twice |
| NativeCore.CyclicCovers | intrusion-resistant-pms-phase2/src/simulator/native_core.py:73-74 | n cyclic steps from any start visit every index of [0, n) |
| NativeCore.ScheduleNextRrIndex | intrusion-resistant-pms-phase2/src/simulator/native_core.py:63-77 | -1 exactly when no entry has work left; otherwise an index in range with work left that is first in cyclic order from the start, every index skipped before it having none |
| NativeCore.EffectiveFactor | intrusion-resistant-pms-phase2/src/simulator/native_core.py:93 | the divisor is at least 1, and is the aging factor itself when that is positive |
| NativeCore.Aged | intrusion-resistant-pms-phase2/src/simulator/native_core.py:93-94 | an aged priority is never negative |
| NativeCore.AgingMonotone | intrusion-resistant-pms-phase2/src/simulator/native_core.py:93-94 | waiting longer never gives a larger aged priority |
| NativeCore.AgingNeverRaises | intrusion-resistant-pms-phase2/src/simulator/native_core.py:93-94 | with non-negative waiting time, the aged priority is at most max(priority, 0) |
| NativeCore.AgingReachesZero | intrusion-resistant-pms-phase2/src/simulator/native_core.py:93-94 | waiting at least priority × factor ages the priority down to 0 |
| NativeCore.NonPositiveFactorIsDefault | intrusion-resistant-pms-phase2/src/simulator/native_core.py:93 | a factor of 0 or less behaves as the default factor 1: max(0, priority − waiting) |
| NativeCore.ApplyAging | intrusion-resistant-pms-phase2/src/simulator/native_core.py:80-95 | output has the input's length; entry i is max(0, priorities[i] − waiting[i] div f) and non-negative |
| NativeCore.ApplyAgingDefault | intrusion-resistant-pms-phase2/src/simulator/native_core.py:80-95 | `apply_aging` called without a factor (default 1): entry i is max(0, priorities[i] − waiting[i]), one entry per priority |
| NativeCore.CountTrue | intrusion-resistant-pms-phase2/src/simulator/native_core.py:114 | the count of set flags is at most their number |
| NativeCore.CountTrueZero | intrusion-resistant-pms-phase2/src/simulator/native_core.py:110-114 | the count is 0 exactly when no flag is set |
| NativeCore.CountTrueAll | intrusion-resistant-pms-phase2/src/simulator/native_core.py:110-114 | the count equals the length exactly when every flag is set |
| NativeCore.DetectIntrusionByUsage | intrusion-resistant-pms-phase2/src/simulator/native_core.py:98-115 | one flag per pid, set exactly when cpu > cpu threshold or mem > memory threshold (strict); count is the number of set flags, between 0 and n; ([], 0) for no pids |
| NativeCore.DetectIntrusionByUsageDefault | intrusion-resistant-pms-phase2/src/simulator/native_core.py:98-115 | `detect_intrusion_by_usage` called without thresholds (default 80 and 80): an entry is flagged exactly when cpu > 80 or mem > 80; the count is the number of set flags |
| Scheduling.Process.constructor | intrusion-resistant-pms-phase2/src/simulator/scheduler.py:2-9 | the fields are as given, remaining time equals the burst, and CPU usage and memory consumption start at 0 |
| Scheduling.Scheduler.constructor | intrusion-resistant-pms-phase2/src/simulator/scheduler.py:12-13 | a new scheduler holds no processes |
| Scheduling.Scheduler.AddProcess | intrusion-resistant-pms-phase2/src/simulator/scheduler.py:15-16 | the process is appended at the end and earlier entries are unchanged |
| Scheduling.Scheduler.GetProcesses | intrusion-resistant-pms-phase2/src/simulator/scheduler.py:41-42 | returns the current list, entry by entry, changing nothing |
| Scheduling.Scheduler.RoundRobin | intrusion-resistant-pms-phase2/src/simulator/scheduler.py:18-30 | runs on every input on which `round_robin` terminates: a positive quantum, or a quantum of 0 or less when every listed process has at most that much left and, below 0, is listed once. The list itself is unchanged. Every listed process ends with remaining time 0. Its CPU usage grew by burst × its number of occurrences. Memory is unchanged. The turns taken are exactly Replay of the list and the remaining times on entry; every turn follows the requeue/drain rule and serves a listed process; the turns of each process start from its remaining time on entry, each later one from what the previous left, and exactly as many of them drain it as it has entries in the list |
| Scheduling.Scheduler.PriorityScheduling | intrusion-resistant-pms-phase2/src/simulator/scheduler.py:32-39 | the list becomes SortByKey of the old list (a sorted, stable permutation). Each process's CPU usage grows by Charged over the new list. Remaining time and memory are unchanged. pid, priority and arrival time are `const` and cannot change. The local clock is not in the contract; a loop invariant ties it to Finish |
| Scheduling.KeyLe | intrusion-resistant-pms-phase2/src/simulator/scheduler.py:33 | the sort key (priority, arrival time) compared as a Python tuple: a smaller priority sorts first, a larger one later, and equal priorities are ordered by arrival time |
| Scheduling.KeyLePreorder | intrusion-resistant-pms-phase2/src/simulator/scheduler.py:33 | the key order is total and transitive, and two entries each sorting no later than the other have the same key |
| Scheduling.Insert | intrusion-resistant-pms-phase2/src/simulator/scheduler.py:33 | inserting adds exactly one element (length and multiset) |
| Scheduling.InsertSorted | intrusion-resistant-pms-phase2/src/simulator/scheduler.py:33 | inserting into a sorted list keeps it sorted |
| Scheduling.SortByKey | intrusion-resistant-pms-phase2/src/simulator/scheduler.py:33 | the sort by (priority, arrival time) is a permutation (same length and multiset) and is ascending |
| Scheduling.InsertWithKey | intrusion-resistant-pms-phase2/src/simulator/scheduler.py:33 | an inserted element goes ahead of the equal-key entries already present and leaves their order alone |
| Scheduling.SortByKeyStable | intrusion-resistant-pms-phase2/src/simulator/scheduler.py:33 | stability: for every key, the entries with that key appear in the same order before and after the sort |
| Scheduling.SortByKeySorted | intrusion-resistant-pms-phase2/src/simulator/scheduler.py:33 | an already sorted list is left exactly as it is |
| Scheduling.ChargedAppend | intrusion-resistant-pms-phase2/src/simulator/scheduler.py:28-39 | CPU charged over a concatenation is the sum over the parts |
| Scheduling.ChargedCount | intrusion-resistant-pms-phase2/src/simulator/scheduler.py:28-39 | the CPU charged to p is its burst times the number of times p occurs |
| Scheduling.ChargedSorted | intrusion-resistant-pms-phase2/src/simulator/scheduler.py:33-39 | after the sort each process is charged burst × its occurrences in the old list, as if unsorted |
| Scheduling.Finish | intrusion-resistant-pms-phase2/src/simulator/scheduler.py:34-38 | after a process runs, the clock is at least its arrival time plus its burst |
| Scheduling.FinishSnoc | intrusion-resistant-pms-phase2/src/simulator/scheduler.py:36-38 | one more step: wait for the arrival if the clock is behind, then add the burst |
| Scheduling.FinishMonotone | intrusion-resistant-pms-phase2/src/simulator/scheduler.py:34-38 | with non-negative bursts the clock never decreases from step to step |
| Scheduling.FinishAfterEach | intrusion-resistant-pms-phase2/src/simulator/scheduler.py:34-38 | with non-negative bursts, the final clock is at least arrival + burst of every entry that ran |
| Scheduling.DrainsHead | intrusion-resistant-pms-phase2/src/simulator/scheduler.py:23-30 | with a quantum of 0 or less on an input where the run ends, the head of the queue has at most a quantum left, so it is drained |
| Scheduling.DrainStep | intrusion-resistant-pms-phase2/src/simulator/scheduler.py:27-30 | draining the head keeps the rest of the queue on an input where the run ends |
| Scheduling.Remaining | intrusion-resistant-pms-phase2/src/simulator/scheduler.py:19 | the snapshot map holds each listed process with its current remaining time |
| Scheduling.Replay | intrusion-resistant-pms-phase2/src/simulator/scheduler.py:21-30 | the turns of the loop from a queue and its remaining times: a non-empty queue first serves its head, from the head's remaining time |
| Scheduling.ReplayRequeue | intrusion-resistant-pms-phase2/src/simulator/scheduler.py:23-26 | a head with more than a quantum left (possible on a terminating input only with a positive quantum) takes one turn and goes to the back a quantum lighter, and the run goes on from there |
| Scheduling.ReplayDrain | intrusion-resistant-pms-phase2/src/simulator/scheduler.py:27-30 | any other head takes one turn and is drained to 0, and the run goes on from the rest of the queue |
| Scheduling.WorkRequeue | intrusion-resistant-pms-phase2/src/simulator/scheduler.py:23-26 | a requeue strictly lowers the outstanding work |
| Scheduling.ReplayTurns | intrusion-resistant-pms-phase2/src/simulator/scheduler.py:18-30 | in the turns of a run, each process's turns chain from its starting remaining time and exactly as many drain it as it has entries in the queue |
| Scheduling.ReplayServed | intrusion-resistant-pms-phase2/src/simulator/scheduler.py:21-30 | every turn of a run serves an entry of the queue and follows the rule: requeued exactly when it had more than a quantum left, then a quantum lighter, otherwise drained to 0 |
| Scheduling.Requeue | intrusion-resistant-pms-phase2/src/simulator/scheduler.py:23-26 | the head loses one quantum of remaining time and moves to the back; the run stays on the course Replay describes, and the outstanding work drops |
| Scheduling.Drain | intrusion-resistant-pms-phase2/src/simulator/scheduler.py:27-30 | the head is charged its burst, its remaining time becomes 0 and it leaves the queue; the run stays on the course Replay describes |
| Scheduling.WorkRotate | intrusion-resistant-pms-phase2/src/simulator/scheduler.py:23-26 | putting a process back a quantum lighter strictly lowers the queue's outstanding work (the termination measure) |
| Detection.FirstReason | intrusion-resistant-pms-phase2/src/intrusion_detection/detection.py:5-12 | which branch of the elif chain fires: CPU if cpu > 80; memory if not that and memory > 80; creation rate if neither and rate > 5; waiting if none of those and waiting > 30 |
| Detection.Flagged | intrusion-resistant-pms-phase2/src/intrusion_detection/detection.py:5-12 | a record is kept exactly when cpu > 80, memory > 80, creation rate > 5 or waiting time > 30 |
| Detection.AtLimitsNotFlagged | intrusion-resistant-pms-phase2/src/intrusion_detection/detection.py:5-11 | the limits are strict: a record at 80, 80, 5 and 30 (or below) is not kept |
| Detection.Suspicious | intrusion-resistant-pms-phase2/src/intrusion_detection/detection.py:1-14 | the result is no longer than the input, and a record is in it exactly when it is in the input and flagged |
| Detection.SuspiciousAppend | intrusion-resistant-pms-phase2/src/intrusion_detection/detection.py:4-12 | filtering a concatenation filters each part, in order |
| Detection.SuspiciousSnoc | intrusion-resistant-pms-phase2/src/intrusion_detection/detection.py:4-12 | scanning one more record appends it exactly when it is flagged |
| Detection.SuspiciousIsSubsequence | intrusion-resistant-pms-phase2/src/intrusion_detection/detection.py:2-14 | the result is a subsequence of the input, with the original order kept |
| Detection.SuspiciousCounts | intrusion-resistant-pms-phase2/src/intrusion_detection/detection.py:4-12 | each flagged record occurs in the result as often as in the input; an unflagged one does not occur at all (at most one append per input entry) |
| Detection.DetectIntrusion | intrusion-resistant-pms-phase2/src/intrusion_detection/detection.py:1-14 | the loop returns exactly Suspicious of the input, whose members are the flagged input records (empty input gives empty output) |
| Mitigation.ActionsFor | intrusion-resistant-pms-phase2/src/mitigation/mitigation.py:11-14 | a report causes at most one call, on its own id: terminate exactly when its level is "high", throttle exactly when it is "medium" |
| Mitigation.Planned | intrusion-resistant-pms-phase2/src/mitigation/mitigation.py:9-14 | the log is no longer than the report list, and every logged call comes from some report |
| Mitigation.PlannedAppend | intrusion-resistant-pms-phase2/src/mitigation/mitigation.py:10-14 | the log of a concatenation is the logs of the parts, in order |
| Mitigation.PlannedSnoc | intrusion-resistant-pms-phase2/src/mitigation/mitigation.py:10-14 | one more report appends that report's calls |
| Mitigation.PlannedAt | intrusion-resistant-pms-phase2/src/mitigation/mitigation.py:10-14 | each report contributes its own calls at its own position in the log (input order) |
| Mitigation.PlannedCounts | intrusion-resistant-pms-phase2/src/mitigation/mitigation.py:10-14 | terminate calls on an id are exactly as many as "high" reports on it; throttle calls exactly as many as "medium" reports |
| Mitigation.IgnoredReportsAddNothing | intrusion-resistant-pms-phase2/src/mitigation/mitigation.py:11-14 | reports of any other level produce no call |
| Mitigation.MitigateThreats | intrusion-resistant-pms-phase2/src/mitigation/mitigation.py:9-14 | the loop's action log is exactly Planned of the reports; the reports themselves are values and are not changed |

## Left out

- The ctypes loading and the `_lib` branches of `native_core.py` are not modelled, because they call foreign C code whose source is not in the repository. `pm_fork_exec` and `pm_kill` are not modelled either, because they are OS process spawning and signalling. Only the interpreted fallbacks are modelled.
- The `_as_c_int_array` conversion to C `int` arrays is not modelled, so neither is its 32-bit truncation. Integers are unbounded in the model. The fallbacks compute on the Python lists, which are unbounded too.
- NativeCore.ScheduleNextPriority, NativeCore.ScheduleNextRrIndex, NativeCore.ApplyAging, NativeCore.DetectIntrusionByUsage and the two default-argument wrappers require every parallel list to be at least as long as the first one. The native routines are passed n = the length of the first list and read n entries of every array, so the model asks that of every caller. The Python fallbacks are more lenient in three of the routines, which return normally on some shorter lists whose missing entries they never reach: `schedule_next_priority` does not read the priority of an entry with no work left (native_core.py:55-56); `schedule_next_rr_index` stops at the first index with work left (native_core.py:75-76); and `detect_intrusion_by_usage` does not read `mem[i]` once `cpu[i]` is over its threshold (native_core.py:112). Those calls are not modelled, and neither is the IndexError the fallbacks raise on the other shorter lists. `apply_aging` raises it whenever `waiting_time` is shorter than `priorities` (native_core.py:93).
- Python default arguments (`aging_factor=1`, thresholds 80/80) are the constants `DefaultAgingFactor`, `DefaultCpuThreshold` and `DefaultMemThreshold`. A call that leaves them out is `ApplyAgingDefault` or `DetectIntrusionByUsageDefault`.
- Scheduling.Scheduler.RoundRobin requires that `round_robin` terminates on its input. With a quantum of 0 or less it loops forever as soon as some listed process has more than the quantum left, or, with a negative quantum, some process is listed twice (its second entry finds 0 > quantum left and is put back for ever). That endless run is not modelled.
- Scheduling.Scheduler.RoundRobin and Scheduling.Scheduler.PriorityScheduling have a local `time` that nothing outside can observe. Only the priority loop's clock is related to a specification (`Finish`); the round-robin clock is kept but not specified.
- Scheduling.Scheduler.GetProcesses returns the list as a value. In Python the caller receives the scheduler's own list object and can mutate it.
- Scheduling.SortByKey models Python's stable `list.sort` by its result (a stable insertion sort as a function), not by the in-place algorithm used.
- The process records of `detection.py` and `mitigation.py` are Python dicts. They are modelled as datatypes holding just the keys read. A missing key (KeyError) is not modelled. The four measurements are `real`, which covers int values and finite float values. NaN and ±inf are not modelled: a NaN measurement passes no test of the chain, and +inf passes its first one. The filter returns records as values; Python returns the same dict objects.
- `throttle_process` and `terminate_process` are empty in the source. They are modelled as entries of the returned action log.
- `flag_suspicious_activity` only prints, and is not modelled.
- The web dashboard, Flask routes, configuration, attack scripts and random resource samples are not part of this model.
