# Scheduler test log analysis, modelled in Dafny

The hybrid RTOS scheduler test harness (`src/main.c`) runs a set of periodic
jobs on Zephyr. It then prints a log with:

- a CSV header line;
- one line per job, `task_id,job_id,release_ms,start_ms,finish_ms,deadline_ms,met`;
- a `kstats` line holding the four scheduler diagnostic counters that
  `sched_diag.c` keeps.

Two Python scripts read such a log and compute scheduling statistics:
wait times, deadline misses, and the counters.

This project models three things:

- **The log readers.** It models `readTextFile` in `dataVisualization.py`
  and in `SAD_dataVisualization.py`, and `readCSV`. Each is a loop with a
  one-flag state machine. The header line switches the job section on. The
  first `kstats` line is decoded and ends the read. Inside the section,
  every other line is converted into a job, except a bare newline (for
  `readCSV`, every other non-empty row).
- **The statistics.**
  - `calculations_and_graphs` groups the jobs by task id. It computes the
    pooled mean and median wait, and the per-task means and medians.
  - It splits the missed-deadline counts into critical and non-critical
    jobs.
  - `calculations` works on a flat list of records.
- **The counters.** `sched_diag.c` provides reset, get, and the enqueue,
  dequeue and context-switch hooks, over a `struct sched_stats`.

Python exceptions are modelled as values:

- `Result` is `Ok` or `Err` of `IndexError`, `ValueError`, `KeyError(key)` or
  `ZeroDivisionError`.
- The first exception raised is the one returned.

Each reader loop and the statistics loops are written as Dafny methods with
`while`/`for` loops. Each method is proved equal to a declarative
specification function. The Python data flow is reused: `ScanNext`/`ScanPrefix`
and `ReadTextSpec` for the readers, and `CalculationsSpec` for the statistics.
The properties are proved as lemmas about those functions:

- which lines become jobs;
- when a read or a computation raises, and which exception it raises;
- that grouping by task loses no job;
- that the statistics mean what their keys say;
- that the SAD statistics do not depend on record order;
- that a log as the harness prints it reads back to its records and counters.

The model is split into modules:

| module | models |
|---|---|
| `PyRuntime` | the built-ins the scripts use: exceptions, `str.split`, slicing, `int()`, `str()` |
| `PyStatistics` | `sum`, exact division for the mean, `sorted`, `statistics.median` |
| `LogScan` | the section state machine shared by all three readers |
| `LogFormat` | line classification, `int()` of a field list, the `kstats` decoding, the "strip newline" cut |
| `HarnessFormat` | the text `main.c` prints (the input both readers are written against) |
| `DataVisualization` | `dataVisualization.py` |
| `SadDataVisualization` | `SAD_dataVisualization.py` |
| `SchedDiag` | `sched_diag.c` |

Four behaviours of the code that the model keeps as written:

- **Global median.** The global median wait is the median of all job waits
  pooled together (`median_wait` collects every wait,
  `dataVisualization.py:128,154`). It is not the median of the per-task
  medians.
- **Missing `kstats` line.** A log without a `kstats` line does not make
  `readTextFile` fail. It returns an empty `kernel_data`, and the statistics
  later raise `IndexError` at `kernel_data[0]`.
- **Empty task.** A task key with no jobs raises `ZeroDivisionError` at that
  task's average. No dedicated "empty data" error is raised.
- **Error kinds.** Errors are the Python exceptions the code raises, not a
  separate format-error kind.

The two scripts expect different job lines:

- `dataVisualization.py` converts eight fields per job line, with
  `critical` at index 6 and `deadline_met` at index 7.
- `main.c` prints seven fields, with no criticality.

So `dataVisualization.py` raises IndexError on every log `main.c` prints
that holds a job (`DataVisualization.HarnessLogRejected`).
`SAD_dataVisualization.py` reads the seven fields and gives back every
printed record and the printed counters
(`SadDataVisualization.HarnessLogRoundTrip`). The eight-field format is
modelled as `DataVisualization.JobRecordLine`, which reads back as its job.

## Model

| member | source | states |
|---|---|---|
| PyRuntime.PrefixSlice | hybrid-rtos-scheduler/SAD_Zephyr_Changes/hybrid_sched_test/dataVisualization.py:54-56 | `line[0:n]` is a prefix of the line, clamped to the line's length |
| PyRuntime.Split | hybrid-rtos-scheduler/SAD_Zephyr_Changes/hybrid_sched_test/dataVisualization.py:57 | `str.split` yields at least one piece and no piece contains the separator |
| PyRuntime.JoinSplit | hybrid-rtos-scheduler/SAD_Zephyr_Changes/hybrid_sched_test/dataVisualization.py:70 | joining the pieces of a split with the separator gives back the line |
| PyRuntime.SplitJoin | hybrid-rtos-scheduler/SAD_Zephyr_Changes/hybrid_sched_test/dataVisualization.py:70 | splitting pieces that were joined, none containing the separator, gives back exactly those pieces |
| PyRuntime.NatToStringDigits | hybrid-rtos-scheduler/SAD_Zephyr_Changes/hybrid_sched_test/dataVisualization.py:162 | `str(n)` is a non-empty digit run without a leading zero whose value is `n` |
| PyRuntime.IntToStringForm | hybrid-rtos-scheduler/SAD_Zephyr_Changes/hybrid_sched_test/dataVisualization.py:162 | `str(i)` is digits with at most a leading minus sign, ending in a digit |
| PyRuntime.StripOfString | hybrid-rtos-scheduler/SAD_Zephyr_Changes/hybrid_sched_test/dataVisualization.py:62-65 | `str(i)`, with or without the line's newline, strips to `str(i)` |
| PyRuntime.ParseIntOfString | hybrid-rtos-scheduler/SAD_Zephyr_Changes/hybrid_sched_test/dataVisualization.py:74-81 | `int(str(i)) == i` for every integer |
| PyRuntime.ParseIntOfLineEnd | hybrid-rtos-scheduler/SAD_Zephyr_Changes/hybrid_sched_test/dataVisualization.py:65 | `int()` reads a printed value followed by the line's newline as that value |
| PyRuntime.IntToStringInjective | hybrid-rtos-scheduler/SAD_Zephyr_Changes/hybrid_sched_test/dataVisualization.py:117 | distinct integers have distinct `str()` keys, so `str(i)` names one task |
| PyStatistics.InsertAdds | hybrid-rtos-scheduler/SAD_Zephyr_Changes/hybrid_sched_test/dataVisualization.py:151 | inserting into the sorted samples adds exactly that one sample |
| PyStatistics.InsertSorted | hybrid-rtos-scheduler/SAD_Zephyr_Changes/hybrid_sched_test/dataVisualization.py:151 | inserting into ascending samples keeps them ascending |
| PyStatistics.SortSorts | hybrid-rtos-scheduler/SAD_Zephyr_Changes/hybrid_sched_test/dataVisualization.py:151 | the sort that `median` sorts with is ascending and a permutation of its samples |
| PyStatistics.SumConcat | hybrid-rtos-scheduler/SAD_Zephyr_Changes/hybrid_sched_test/dataVisualization.py:127 | the running sum over two runs of samples is the sum of both |
| PyStatistics.SumOfPermutation | hybrid-rtos-scheduler/SAD_Zephyr_Changes/hybrid_sched_test/SAD_dataVisualization.py:119 | the accumulated wait sum does not depend on the order of the samples |
| PyStatistics.MeanOfPermutation | hybrid-rtos-scheduler/SAD_Zephyr_Changes/hybrid_sched_test/SAD_dataVisualization.py:126 | `sum/len` does not depend on the order of the samples |
| PyStatistics.SortedUnique | hybrid-rtos-scheduler/SAD_Zephyr_Changes/hybrid_sched_test/SAD_dataVisualization.py:127 | two ascending arrangements of the same samples are equal |
| PyStatistics.MedianOfPermutation | hybrid-rtos-scheduler/SAD_Zephyr_Changes/hybrid_sched_test/SAD_dataVisualization.py:127 | `median` does not depend on the order of the samples |
| PyStatistics.MedianBetween | hybrid-rtos-scheduler/SAD_Zephyr_Changes/hybrid_sched_test/SAD_dataVisualization.py:127 | the median lies between the smallest and the largest sample |
| LogScan.FirstOf | hybrid-rtos-scheduler/SAD_Zephyr_Changes/hybrid_sched_test/dataVisualization.py:53-68 | the index of the first line of a kind: none of that kind before it, and it has that kind |
| LogScan.Records | hybrid-rtos-scheduler/SAD_Zephyr_Changes/hybrid_sched_test/dataVisualization.py:69 | only record lines are kept, no more of them than there are lines |
| LogScan.KstatsItem | hybrid-rtos-scheduler/SAD_Zephyr_Changes/hybrid_sched_test/dataVisualization.py:56-68 | there is a snapshot line exactly when some line is a `kstats` line, and it is one |
| LogScan.KernelData | hybrid-rtos-scheduler/SAD_Zephyr_Changes/hybrid_sched_test/dataVisualization.py:47-68 | `kernel_data` holds at most one snapshot, and is empty exactly when there is no `kstats` line |
| LogScan.DecodeEachMeaning | hybrid-rtos-scheduler/SAD_Zephyr_Changes/hybrid_sched_test/SAD_dataVisualization.py:64-68 | converting the job lines succeeds iff every one converts, in order; otherwise the first failing line's exception is raised |
| LogScan.PreambleIgnored | hybrid-rtos-scheduler/SAD_Zephyr_Changes/hybrid_sched_test/dataVisualization.py:53-69 | lines before the first header or `kstats` line change neither the jobs nor the snapshot |
| LogScan.StopsAtKstats | hybrid-rtos-scheduler/SAD_Zephyr_Changes/hybrid_sched_test/dataVisualization.py:67-68 | after the first `kstats` line nothing is read (the `break`) |
| LogScan.ScanOfLayout | hybrid-rtos-scheduler/SAD_Zephyr_Changes/hybrid_sched_test/dataVisualization.py:52-69 | preamble, header, records, `kstats`, anything: the jobs are exactly the records and the snapshot is that `kstats` line |
| LogScan.ScanStep | hybrid-rtos-scheduler/SAD_Zephyr_Changes/hybrid_sched_test/dataVisualization.py:54-69 | one line moves the section flag on at a header, and adds the line to the jobs exactly when it is a record inside the section |
| LogScan.ScanPrefixMeaning | hybrid-rtos-scheduler/SAD_Zephyr_Changes/hybrid_sched_test/SAD_dataVisualization.py:51-68 | until it stops, the line-by-line reader's flag is "a header was seen" and its jobs are the converted records after it |
| LogScan.ScanRecordRaises | hybrid-rtos-scheduler/SAD_Zephyr_Changes/hybrid_sched_test/SAD_dataVisualization.py:64-68 | a record inside the section that fails to convert makes the whole read raise its exception |
| LogFormat.IntFields | hybrid-rtos-scheduler/SAD_Zephyr_Changes/hybrid_sched_test/dataVisualization.py:74-81 | `int(data[0])...int(data[n-1])`: succeeds iff there are `n` fields that all convert, giving their values; IndexError exactly when the fields run out first; otherwise ValueError |
| LogFormat.IntFieldsOf | hybrid-rtos-scheduler/SAD_Zephyr_Changes/hybrid_sched_test/SAD_dataVisualization.py:20-26 | fields that all convert give their values |
| LogFormat.IntFieldsOfPrinted | hybrid-rtos-scheduler/SAD_Zephyr_Changes/hybrid_sched_test/SAD_dataVisualization.py:20-26 | printed values convert back to themselves; asking for more fields than printed raises IndexError |
| LogFormat.DecodeKernel | hybrid-rtos-scheduler/SAD_Zephyr_Changes/hybrid_sched_test/SAD_dataVisualization.py:10-15 | `kernel(data)` succeeds iff four fields convert, and holds ctx, preempt, readyq_max, readyq_cur in that order |
| LogFormat.DecodeKernelOf | hybrid-rtos-scheduler/SAD_Zephyr_Changes/hybrid_sched_test/dataVisualization.py:62-65 | four converting fields give the snapshot of their values |
| LogFormat.KstatsValues | hybrid-rtos-scheduler/SAD_Zephyr_Changes/hybrid_sched_test/dataVisualization.py:59-61 | `elem.split('=')[1]` per field: succeeds iff every field has a `=`, giving the text after it; otherwise IndexError |
| LogFormat.ExtractValues | hybrid-rtos-scheduler/SAD_Zephyr_Changes/hybrid_sched_test/dataVisualization.py:59-61 | the value-extraction loop computes exactly those values or that IndexError |
| LogFormat.DecodeKstatsFields | hybrid-rtos-scheduler/SAD_Zephyr_Changes/hybrid_sched_test/SAD_dataVisualization.py:86-90 | the cells after the tag decode iff every one holds a `=` and the values after `=` of the first four convert, giving ctx, preempt, readyq_max, readyq_cur in order; a cell without `=` or fewer than four cells (all converting) raise IndexError, otherwise ValueError |
| LogFormat.DecodeKstatsLine | hybrid-rtos-scheduler/SAD_Zephyr_Changes/hybrid_sched_test/dataVisualization.py:56-65 | with the fields after the first comma: the line decodes iff every field holds a `=` and the first four values after `=` convert, giving the four counters in order; a field without `=` or fewer than four fields (all converting) raise IndexError, otherwise ValueError |
| LogFormat.TruncateLast | hybrid-rtos-scheduler/SAD_Zephyr_Changes/hybrid_sched_test/dataVisualization.py:72 | `data[-1] = data[-1][0]` succeeds iff the last field is non-empty, keeps the other fields and cuts the last to its first character |
| LogFormat.TruncateLineEnd | hybrid-rtos-scheduler/SAD_Zephyr_Changes/hybrid_sched_test/dataVisualization.py:71-72 | on a one-character last field followed by the newline, the cut removes exactly the newline |
| HarnessFormat.Banner | hybrid-rtos-scheduler/SAD_Zephyr_Changes/hybrid_sched_test/src/main.c:111-129 | main prints one line per created thread plus its start line and the line after the last thread |
| HarnessFormat.JobLines | hybrid-rtos-scheduler/SAD_Zephyr_Changes/hybrid_sched_test/src/main.c:137-143 | one printed line per logged job, in log order |
| HarnessFormat.IntToStringNoSep | hybrid-rtos-scheduler/SAD_Zephyr_Changes/hybrid_sched_test/src/main.c:139-142 | a printed integer contains no separator character (`,`, `=`, `/`) |
| HarnessFormat.JobPiecesNoComma | hybrid-rtos-scheduler/SAD_Zephyr_Changes/hybrid_sched_test/src/main.c:139-142 | a job line has seven comma-free pieces |
| HarnessFormat.JobFieldsTruncated | hybrid-rtos-scheduler/SAD_Zephyr_Changes/hybrid_sched_test/src/main.c:142 | the met flag prints as one digit, so the readers' last-field cut leaves exactly the printed fields |
| HarnessFormat.JobLineSplits | hybrid-rtos-scheduler/SAD_Zephyr_Changes/hybrid_sched_test/src/main.c:139-142 | a printed job line splits at commas into exactly its seven pieces |
| HarnessFormat.PlainLineIsRecord | hybrid-rtos-scheduler/SAD_Zephyr_Changes/hybrid_sched_test/dataVisualization.py:54-69 | a line of two or more characters starting with neither `t` nor `k` is a record line |
| HarnessFormat.BannerInert | hybrid-rtos-scheduler/SAD_Zephyr_Changes/hybrid_sched_test/src/main.c:111-129 | main's banner lines are neither header nor `kstats` lines |
| HarnessFormat.JobLineIsRecord | hybrid-rtos-scheduler/SAD_Zephyr_Changes/hybrid_sched_test/src/main.c:139-142 | every printed job line is a record line to the readers |
| HarnessFormat.HeaderAndKstatsClassified | hybrid-rtos-scheduler/SAD_Zephyr_Changes/hybrid_sched_test/src/main.c:135-149 | the printed header is the header line and the printed `kstats` line is the snapshot line |
| HarnessFormat.KeyValueSplits | hybrid-rtos-scheduler/SAD_Zephyr_Changes/hybrid_sched_test/src/main.c:148-149 | `key=value` splits at `=` into the key and the printed value |
| HarnessFormat.KstatsLineFields | hybrid-rtos-scheduler/SAD_Zephyr_Changes/hybrid_sched_test/src/main.c:148-149 | the fields after the tag of the printed `kstats` line are its four `key=value` pieces |
| HarnessFormat.KstatsValuesOfPrinted | hybrid-rtos-scheduler/SAD_Zephyr_Changes/hybrid_sched_test/dataVisualization.py:59-61 | the values after `=` of the printed `kstats` line are the four printed counters |
| HarnessFormat.DecodePrintedKernel | hybrid-rtos-scheduler/SAD_Zephyr_Changes/hybrid_sched_test/SAD_dataVisualization.py:10-15 | `kernel()` of the four printed counters gives them back |
| HarnessFormat.KstatsLineDecodes | hybrid-rtos-scheduler/SAD_Zephyr_Changes/hybrid_sched_test/src/main.c:146-149 | reading back the printed `kstats` line gives the counters `sched_diag_get` reported, unchanged and in order |
| HarnessFormat.HarnessLogScan | hybrid-rtos-scheduler/SAD_Zephyr_Changes/hybrid_sched_test/src/main.c:110-152 | in a printed log the readers take exactly the job lines as jobs and the `kstats` line as the snapshot |
| DataVisualization.DecodeJobLine | hybrid-rtos-scheduler/SAD_Zephyr_Changes/hybrid_sched_test/dataVisualization.py:69-83 | a converted job line had at least eight fields and is keyed by its first field's text, which reads as its task id; failures are IndexError or ValueError |
| DataVisualization.Grouped | hybrid-rtos-scheduler/SAD_Zephyr_Changes/hybrid_sched_test/dataVisualization.py:83-89 | the dict of task lists has each key once, the same keys in its order as in the map, and no empty list |
| DataVisualization.ReadJobLine | hybrid-rtos-scheduler/SAD_Zephyr_Changes/hybrid_sched_test/dataVisualization.py:69-89 | a data line either raises its conversion error or appends its job to its task's list, opening the list for a new key |
| DataVisualization.ReadLine | hybrid-rtos-scheduler/SAD_Zephyr_Changes/hybrid_sched_test/dataVisualization.py:53-89 | one loop pass continues exactly when the line is not `kstats` and is not a failing data line; it switches the section on at a header and adds the line's job; at `kstats` it returns the snapshot and the dict |
| DataVisualization.GroupedAfter | hybrid-rtos-scheduler/SAD_Zephyr_Changes/hybrid_sched_test/dataVisualization.py:69-89 | updating the dict line by line gives the dict of all the decoded job lines so far, grouped by task in file order |
| DataVisualization.ReadTextFile | hybrid-rtos-scheduler/SAD_Zephyr_Changes/hybrid_sched_test/dataVisualization.py:44-91 | the loop returns exactly the read specification: the converted job lines grouped by key and the first snapshot, or the first exception |
| DataVisualization.GroupedSelect | hybrid-rtos-scheduler/SAD_Zephyr_Changes/hybrid_sched_test/dataVisualization.py:83-89 | a key is in the dict iff some job carries it, and its list is exactly those jobs in file order |
| DataVisualization.TotalJobsBump | hybrid-rtos-scheduler/SAD_Zephyr_Changes/hybrid_sched_test/dataVisualization.py:86 | replacing one key's list changes the job total by the change in that list's length |
| DataVisualization.GroupedTotal | hybrid-rtos-scheduler/SAD_Zephyr_Changes/hybrid_sched_test/dataVisualization.py:83-89 | grouping loses no job and counts none twice |
| DataVisualization.ReadTextShape | hybrid-rtos-scheduler/SAD_Zephyr_Changes/hybrid_sched_test/dataVisualization.py:44-91 | a successful read gives at most one snapshot, present iff there is a `kstats` line and decoded from the first, and a well-formed dict with one job per job line |
| DataVisualization.ReadTextSucceedsIff | hybrid-rtos-scheduler/SAD_Zephyr_Changes/hybrid_sched_test/dataVisualization.py:53-91 | the read succeeds iff every job line converts and the first `kstats` line, if any, decodes; a job line's exception comes first |
| DataVisualization.ReadTextIgnoresPreamble | hybrid-rtos-scheduler/SAD_Zephyr_Changes/hybrid_sched_test/dataVisualization.py:53-69 | lines before the header that are not `kstats` lines do not change the result |
| DataVisualization.ReadTextStopsAtKstats | hybrid-rtos-scheduler/SAD_Zephyr_Changes/hybrid_sched_test/dataVisualization.py:67-68 | lines after the first `kstats` line do not change the result |
| DataVisualization.ReadTextSpecOf | hybrid-rtos-scheduler/SAD_Zephyr_Changes/hybrid_sched_test/dataVisualization.py:44-91 | the result depends only on the job lines and the first `kstats` line |
| DataVisualization.JobRecordLineDecodes | hybrid-rtos-scheduler/SAD_Zephyr_Changes/hybrid_sched_test/dataVisualization.py:69-83 | an eight-field job line reads back as its job, keyed by its printed task id, when `deadline_met` is one digit |
| DataVisualization.HarnessJobLineRejected | hybrid-rtos-scheduler/SAD_Zephyr_Changes/hybrid_sched_test/dataVisualization.py:70-81 | a job line as main prints it (seven fields) raises IndexError at `data[7]` |
| DataVisualization.HarnessLogRejected | hybrid-rtos-scheduler/SAD_Zephyr_Changes/hybrid_sched_test/dataVisualization.py:44-91 | reading a printed log with at least one job raises IndexError |
| DataVisualization.TaskList | hybrid-rtos-scheduler/SAD_Zephyr_Changes/hybrid_sched_test/dataVisualization.py:116-150 | the task lookups `processes_data[str(i)]` give one non-empty list per index |
| DataVisualization.VisitJobs | hybrid-rtos-scheduler/SAD_Zephyr_Changes/hybrid_sched_test/dataVisualization.py:121-145 | the job loop moves the accumulators by the task's jobs one at a time, and builds the task's waits and intervals |
| DataVisualization.TallyOfConcat | hybrid-rtos-scheduler/SAD_Zephyr_Changes/hybrid_sched_test/dataVisualization.py:115-145 | running the job loop task after task leaves the accumulators of all the jobs so far, so the outer loop never resets them |
| DataVisualization.CountJob | hybrid-rtos-scheduler/SAD_Zephyr_Changes/hybrid_sched_test/dataVisualization.py:121-142 | one pass of the job loop moves the accumulators by that job alone: one more job, its wait added to the sum and the pooled list, and a missed deadline counted overall and in the job's criticality class |
| DataVisualization.CalculationsAndGraphs | hybrid-rtos-scheduler/SAD_Zephyr_Changes/hybrid_sched_test/dataVisualization.py:103-172 | the nested loops return exactly the statistics specification |
| DataVisualization.CalculationsSpecFails | hybrid-rtos-scheduler/SAD_Zephyr_Changes/hybrid_sched_test/dataVisualization.py:116-151 | a failing task lookup or task average is the exception the whole computation raises |
| DataVisualization.CalculationsSpecOf | hybrid-rtos-scheduler/SAD_Zephyr_Changes/hybrid_sched_test/dataVisualization.py:153-172 | once every task is found: no job raises ZeroDivisionError, no snapshot raises IndexError, else the dict entry by entry from the pooled jobs and the tasks |
| DataVisualization.TallyOfMeaning | hybrid-rtos-scheduler/SAD_Zephyr_Changes/hybrid_sched_test/dataVisualization.py:121-142 | the accumulators are the job count, the wait sum, the wait list, the missed count, and the (missed, total) pairs of critical and other jobs |
| DataVisualization.TallyWaits | hybrid-rtos-scheduler/SAD_Zephyr_Changes/hybrid_sched_test/dataVisualization.py:125-128 | `average_wait_overall` accumulates the sum of the waits and `median_wait` the waits in order |
| DataVisualization.TallyCritical | hybrid-rtos-scheduler/SAD_Zephyr_Changes/hybrid_sched_test/dataVisualization.py:135-138 | `critical_deadlines_missed` counts the critical jobs' misses and the critical jobs |
| DataVisualization.TallyNonCritical | hybrid-rtos-scheduler/SAD_Zephyr_Changes/hybrid_sched_test/dataVisualization.py:139-142 | `non_critical_deadlines_missed` counts the other jobs' misses and the other jobs |
| DataVisualization.TaskStep | hybrid-rtos-scheduler/SAD_Zephyr_Changes/hybrid_sched_test/dataVisualization.py:147-151 | one more task extends every per-task list by that task's entry alone |
| DataVisualization.TaskListFails | hybrid-rtos-scheduler/SAD_Zephyr_Changes/hybrid_sched_test/dataVisualization.py:116-151 | once a lookup or an average raises, the rest of the loop is not reached |
| DataVisualization.CriticalSplit | hybrid-rtos-scheduler/SAD_Zephyr_Changes/hybrid_sched_test/dataVisualization.py:135-142 | every job is critical or not: the two totals add up to all jobs, the two missed counts to all misses |
| DataVisualization.MissedMeaning | hybrid-rtos-scheduler/SAD_Zephyr_Changes/hybrid_sched_test/dataVisualization.py:132-133 | misses are at most the jobs, and zero exactly when no job has `deadline_met == 0` |
| DataVisualization.SeriesMeaning | hybrid-rtos-scheduler/SAD_Zephyr_Changes/hybrid_sched_test/dataVisualization.py:125-145 | entry `k` of the waits is job `k`'s `start_ms - release_ms`, and of the intervals its `[start_ms, finish_ms]` |
| DataVisualization.RatioParts | hybrid-rtos-scheduler/SAD_Zephyr_Changes/hybrid_sched_test/dataVisualization.py:162-164 | a "missed/total" string splits at `/` into the two counts, which read back as the counts |
| DataVisualization.TaskListSucceeds | hybrid-rtos-scheduler/SAD_Zephyr_Changes/hybrid_sched_test/dataVisualization.py:116-150 | the task lookups succeed iff every key `str(i)` below `n` is there with jobs |
| DataVisualization.TaskListValues | hybrid-rtos-scheduler/SAD_Zephyr_Changes/hybrid_sched_test/dataVisualization.py:116-117 | task `i` of successful lookups is the list of key `str(i)` |
| DataVisualization.WaitsConcat | hybrid-rtos-scheduler/SAD_Zephyr_Changes/hybrid_sched_test/dataVisualization.py:128 | the waits of two runs of jobs are the waits of each, one after the other |
| DataVisualization.WaitsFlatten | hybrid-rtos-scheduler/SAD_Zephyr_Changes/hybrid_sched_test/dataVisualization.py:128-147 | the pooled wait list is the per-task wait lists one after the other |
| DataVisualization.FlattenLength | hybrid-rtos-scheduler/SAD_Zephyr_Changes/hybrid_sched_test/dataVisualization.py:122 | with no empty task there are at least as many jobs as tasks |
| DataVisualization.WaitTimesMeaning | hybrid-rtos-scheduler/SAD_Zephyr_Changes/hybrid_sched_test/dataVisualization.py:147 | entry `i` of `wait_time` is task `i`'s waits |
| DataVisualization.VisualsMeaning | hybrid-rtos-scheduler/SAD_Zephyr_Changes/hybrid_sched_test/dataVisualization.py:148 | entry `i` of `overall_visual` is task `i`'s intervals |
| DataVisualization.TaskMeansMeaning | hybrid-rtos-scheduler/SAD_Zephyr_Changes/hybrid_sched_test/dataVisualization.py:150 | entry `i` of `average_wait_process` is the mean of task `i`'s waits |
| DataVisualization.TaskMediansMeaning | hybrid-rtos-scheduler/SAD_Zephyr_Changes/hybrid_sched_test/dataVisualization.py:151 | entry `i` of `median_wait_process` is the median of task `i`'s waits |
| DataVisualization.CalculationsSucceedsIff | hybrid-rtos-scheduler/SAD_Zephyr_Changes/hybrid_sched_test/dataVisualization.py:116-172 | the dict is returned iff there is a task, every key `str(0)`..`str(n-1)` has jobs, and there is a snapshot |
| DataVisualization.CalculationsFirstBadKey | hybrid-rtos-scheduler/SAD_Zephyr_Changes/hybrid_sched_test/dataVisualization.py:117-150 | the first missing key raises `KeyError` of that key; the first key with no jobs raises ZeroDivisionError |
| DataVisualization.CalculationsCounts | hybrid-rtos-scheduler/SAD_Zephyr_Changes/hybrid_sched_test/dataVisualization.py:161-172 | all met iff no job missed; the three "missed/total" strings; critical plus non-critical make up the whole; the kernel counters pass through |
| DataVisualization.CalculationsPooled | hybrid-rtos-scheduler/SAD_Zephyr_Changes/hybrid_sched_test/dataVisualization.py:153-154 | the overall average and median are the mean and median of all per-task waits pooled |
| DataVisualization.CalculationsPerTask | hybrid-rtos-scheduler/SAD_Zephyr_Changes/hybrid_sched_test/dataVisualization.py:147-148 | one entry per task; entry `i` holds the waits and intervals of key `str(i)` |
| DataVisualization.CalculationsPerTaskStats | hybrid-rtos-scheduler/SAD_Zephyr_Changes/hybrid_sched_test/dataVisualization.py:150-151 | the per-task averages and medians are the mean and median of each task's non-empty waits |
| DataVisualization.PerTaskListsOf | hybrid-rtos-scheduler/SAD_Zephyr_Changes/hybrid_sched_test/dataVisualization.py:147-151 | the per-task lists of a successful result are those of the looked-up tasks |
| SadDataVisualization.DecodeProcess | hybrid-rtos-scheduler/SAD_Zephyr_Changes/hybrid_sched_test/SAD_dataVisualization.py:18-26 | `process(data)` succeeds iff seven fields convert, and each attribute is its field's value; failures are IndexError or ValueError |
| SadDataVisualization.DecodeProcessLine | hybrid-rtos-scheduler/SAD_Zephyr_Changes/hybrid_sched_test/SAD_dataVisualization.py:65-68 | a converted data line had at least seven fields |
| SadDataVisualization.ReadLine | hybrid-rtos-scheduler/SAD_Zephyr_Changes/hybrid_sched_test/SAD_dataVisualization.py:52-68 | one loop pass is one step of the scan: it continues exactly when the scan has neither stopped nor raised, with the scan's new state |
| SadDataVisualization.ReadTextFile | hybrid-rtos-scheduler/SAD_Zephyr_Changes/hybrid_sched_test/SAD_dataVisualization.py:43-70 | the loop returns exactly the read specification |
| SadDataVisualization.ReadTextStops | hybrid-rtos-scheduler/SAD_Zephyr_Changes/hybrid_sched_test/SAD_dataVisualization.py:55-68 | at the `kstats` line or a failing data line the read's result is settled |
| SadDataVisualization.ReadTextShape | hybrid-rtos-scheduler/SAD_Zephyr_Changes/hybrid_sched_test/SAD_dataVisualization.py:43-70 | a successful read gives at most one snapshot, present iff there is a `kstats` line and decoded from it, and one record per job line, converted from it |
| SadDataVisualization.ReadRow | hybrid-rtos-scheduler/SAD_Zephyr_Changes/hybrid_sched_test/SAD_dataVisualization.py:83-94 | one pass of the CSV loop is one step of the scan over rows |
| SadDataVisualization.ReadCsv | hybrid-rtos-scheduler/SAD_Zephyr_Changes/hybrid_sched_test/SAD_dataVisualization.py:73-96 | the loop returns exactly the CSV read specification |
| SadDataVisualization.ReadCsvStops | hybrid-rtos-scheduler/SAD_Zephyr_Changes/hybrid_sched_test/SAD_dataVisualization.py:84-94 | at the `kstats` row or a failing record row the read's result is settled |
| SadDataVisualization.ReadCsvShape | hybrid-rtos-scheduler/SAD_Zephyr_Changes/hybrid_sched_test/SAD_dataVisualization.py:73-96 | a successful CSV read gives at most one snapshot, present iff there is a `kstats` row, and one record per record row, converted from it |
| SadDataVisualization.Calculations | hybrid-rtos-scheduler/SAD_Zephyr_Changes/hybrid_sched_test/SAD_dataVisualization.py:108-141 | the loop returns exactly the statistics specification |
| SadDataVisualization.MissedMeaning | hybrid-rtos-scheduler/SAD_Zephyr_Changes/hybrid_sched_test/SAD_dataVisualization.py:123-124 | misses are at most the records, and zero exactly when every record met its deadline |
| SadDataVisualization.WaitsMeaning | hybrid-rtos-scheduler/SAD_Zephyr_Changes/hybrid_sched_test/SAD_dataVisualization.py:117-118 | entry `i` of `wait_time` is record `i`'s `start_ms - release_ms` |
| SadDataVisualization.CalculationsSucceedsIff | hybrid-rtos-scheduler/SAD_Zephyr_Changes/hybrid_sched_test/SAD_dataVisualization.py:126-138 | returns iff there is a record and a snapshot; no record raises ZeroDivisionError first, else no snapshot raises IndexError |
| SadDataVisualization.CalculationsMeaning | hybrid-rtos-scheduler/SAD_Zephyr_Changes/hybrid_sched_test/SAD_dataVisualization.py:108-139 | all met iff no record missed; the missed count; one wait per record; mean and median of the waits, the median between two of them; queue figures from the first snapshot |
| SadDataVisualization.WaitsConcat | hybrid-rtos-scheduler/SAD_Zephyr_Changes/hybrid_sched_test/SAD_dataVisualization.py:114-124 | waits and misses of two runs of records are those of each combined |
| SadDataVisualization.RemoveRecord | hybrid-rtos-scheduler/SAD_Zephyr_Changes/hybrid_sched_test/SAD_dataVisualization.py:114-124 | taking one record out takes its wait and its miss out of the totals |
| SadDataVisualization.WithoutAt | hybrid-rtos-scheduler/SAD_Zephyr_Changes/hybrid_sched_test/SAD_dataVisualization.py:114 | taking record `k` out of the list takes it out of its multiset |
| SadDataVisualization.PermutedRecords | hybrid-rtos-scheduler/SAD_Zephyr_Changes/hybrid_sched_test/SAD_dataVisualization.py:114-124 | rearranged records have the same waits in some order and the same miss count |
| SadDataVisualization.CalculationsOrderFree | hybrid-rtos-scheduler/SAD_Zephyr_Changes/hybrid_sched_test/SAD_dataVisualization.py:108-139 | the order of the records changes neither success nor any statistic |
| SadDataVisualization.ProcessesOf | hybrid-rtos-scheduler/SAD_Zephyr_Changes/hybrid_sched_test/src/main.c:137-143 | one expected record per logged job, in log order |
| SadDataVisualization.JobLineDecodes | hybrid-rtos-scheduler/SAD_Zephyr_Changes/hybrid_sched_test/SAD_dataVisualization.py:64-68 | a job line as main prints it reads back as its record |
| SadDataVisualization.HarnessLogRoundTrip | hybrid-rtos-scheduler/SAD_Zephyr_Changes/hybrid_sched_test/SAD_dataVisualization.py:43-70 | reading a printed log gives the printed counters as the one snapshot and every printed record, in order |
| SadDataVisualization.HarnessLogStats | hybrid-rtos-scheduler/SAD_Zephyr_Changes/hybrid_sched_test/SAD_dataVisualization.py:108-139 | on a printed log's records the statistics succeed: all met iff every job met its deadline, one wait per job, queue figures are the printed counters |
| SadDataVisualization.ProcessRowDecodes | hybrid-rtos-scheduler/SAD_Zephyr_Changes/hybrid_sched_test/SAD_dataVisualization.py:93-94 | a CSV record row reads back as its record, whatever its `deadline_met` |
| SchedDiag.Zero | hybrid-rtos-scheduler/SAD_Zephyr_Changes/sched_mod/sched_diag.c:10-18 | reset sets all four counters to zero, a consistent state |
| SchedDiag.Enqueued | hybrid-rtos-scheduler/SAD_Zephyr_Changes/sched_mod/sched_diag.c:29-35 | enqueue adds one to the current length (wrapping at 2^32), raises the maximum to it when above, touches nothing else, and keeps consistency |
| SchedDiag.Dequeued | hybrid-rtos-scheduler/SAD_Zephyr_Changes/sched_mod/sched_diag.c:38-43 | dequeue lowers the current length by one but not below zero, touches nothing else, and keeps consistency |
| SchedDiag.Switched | hybrid-rtos-scheduler/SAD_Zephyr_Changes/sched_mod/sched_diag.c:46-61 | every switch counts; a preemption also counts exactly when both threads are known and the incoming priority value is lower |
| SchedDiag.ReplayConsistent | hybrid-rtos-scheduler/SAD_Zephyr_Changes/sched_mod/sched_diag.c:10-61 | any sequence of hook calls keeps current <= maximum < 2^32 and preemptions <= switches |
| SchedDiag.ReplayCounts | hybrid-rtos-scheduler/SAD_Zephyr_Changes/sched_mod/sched_diag.c:46-61 | without a reset, the counters count the switches and the preempting switches |
| SchedDiag.MaxMonotone | hybrid-rtos-scheduler/SAD_Zephyr_Changes/sched_mod/sched_diag.c:29-43 | without a reset, the maximum never decreases |
| SchedDiag.MaxIsHighWater | hybrid-rtos-scheduler/SAD_Zephyr_Changes/sched_mod/sched_diag.c:29-43 | without a reset, the maximum is at least every length the queue had along the way |
| SchedDiag.SchedStats.constructor | hybrid-rtos-scheduler/SAD_Zephyr_Changes/sched_mod/sched_diag.c:7 | the static counters start at zero |
| SchedDiag.Diag.constructor | hybrid-rtos-scheduler/SAD_Zephyr_Changes/sched_mod/sched_diag.c:7-8 | the diagnostics start with zero counters, enabled or not |
| SchedDiag.Diag.Reset | hybrid-rtos-scheduler/SAD_Zephyr_Changes/sched_mod/sched_diag.c:10-18 | after `sched_diag_reset` all four counters are zero |
| SchedDiag.Diag.Get | hybrid-rtos-scheduler/SAD_Zephyr_Changes/sched_mod/sched_diag.c:20-26 | a non-null `out` receives a copy of the counters (zeros when disabled); a null `out` is left alone |
| SchedDiag.Diag.OnEnqueue | hybrid-rtos-scheduler/SAD_Zephyr_Changes/sched_mod/sched_diag.c:29-35 | the counters become `Enqueued` of the old ones when enabled, are unchanged otherwise, and stay consistent |
| SchedDiag.Diag.OnDequeue | hybrid-rtos-scheduler/SAD_Zephyr_Changes/sched_mod/sched_diag.c:38-43 | the counters become `Dequeued` of the old ones when enabled, are unchanged otherwise, and stay consistent |
| SchedDiag.Diag.OnContextSwitch | hybrid-rtos-scheduler/SAD_Zephyr_Changes/sched_mod/sched_diag.c:46-61 | the counters become `Switched` of the old ones when enabled, are unchanged otherwise, and stay consistent |

## Left out

- Plotting (`plt.*`), the `graphs` dicts, `output()` and the top-level script: these are presentation and console I/O.
- File opening and iteration: the readers take the file's lines (each with its newline) or the `csv` module's rows as input.
- `csv.reader` quoting and dialects: `readCSV` is modelled from the rows onwards.
- `readCSV` opens the global `filename` instead of its `infile_path` parameter. This cannot be seen once the rows are an input.
- `int()`: underscores between digits, non-ASCII digits and whitespace above U+007F are not modelled. Any such field is treated as a ValueError. ASCII whitespace, including U+001C to U+001F, is stripped as Python does.
- Python's float division and float median are modelled as exact rationals (`real`), so rounding is not modelled.
- `statistics.median` on an empty list (StatisticsError): every call site first divides by the same length, which raises ZeroDivisionError first, so this case is unreachable and not modelled.
- `SchedDiag.Stats`: `context_switches` and `preemptions` are `uint64_t` counters. Their wrap-around at 2^64 is not modelled.
- The spinlock and concurrent calls: each hook is one atomic update.
- `SchedDiag.Diag.Get` requires that `out` is not the static `g_stats` itself, which is private to sched_diag.c.
- `k_thread` is reduced to its `base.prio`.
- main.c's timing, threads, random jitter, sleeping and the job loop are not modelled. The model keeps only what main prints: a log of `job_log_t` records and the `kstats` line. Times are taken as given naturals, so the `uint32_t` millisecond wrap is not modelled.
- The `LOG_MAX` bound of 512 records is not enforced on the record list `HarnessLog` takes.
- The two text readers keep only the first character of the last field (`data[-1][0]`). On an eight-field line whose `deadline_met` has more than one character, that field is cut. `DataVisualization.JobRecordLineDecodes` is stated only for one-digit values for this reason.
- `sched_diag.h`'s declarations are modelled by the members above and add nothing of their own.
