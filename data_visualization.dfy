/** dataVisualization.py: `readTextFile` reads a harness log into the kernel
    snapshot and a dict from task id (as text) to that task's jobs, and
    `calculations_and_graphs` turns the dict into wait-time and
    missed-deadline statistics. This reader expects eight fields per job
    line (the seventh is `critical`, the eighth `deadline_met`). */
module DataVisualization {
  import opened PyRuntime
  import opened PyStatistics
  import opened LogScan
  import opened LogFormat
  import HarnessFormat
  import SchedDiag

  /** One job dict of `processes_data`. */
  datatype Job = Job(taskId: int, jobId: int, releaseMs: int, startMs: int, finishMs: int,
                     deadlineMs: int, critical: int, deadlineMet: int)

  /** The data-line branch of `readTextFile` up to the dict update: split at
      commas, cut the last field to its first character, convert fields 0
      to 7, and key the job by the text of field 0. */
  function DecodeJobLine(line: string): (r: Result<(string, Job)>)
    ensures r.Ok? ==> |Split(line, ',')| >= 8
    ensures r.Ok? ==> r.value.0 == Split(line, ',')[0] && ParseInt(r.value.0) == Some(r.value.1.taskId)
    ensures r.Err? ==> r.error == IndexError || r.error == ValueError
  {
    var data :- TruncateLast(Split(line, ','));
    var v :- IntFields(data, 8);
    Ok((data[0], Job(v[0], v[1], v[2], v[3], v[4], v[5], v[6], v[7])))
  }

  // ---------------------------------------------------------------------------
  // processes_data

  /** A dict from task id text to the task's jobs: its keys in insertion
      order, and the lists. */
  datatype TaskDict = TaskDict(order: seq<string>, groups: map<string, seq<Job>>)

  /** What the reader keeps true of the dict: each key once, the same keys in
      the order as in the map, and no empty list. */
  ghost predicate WellFormed(d: TaskDict)
  {
    && (forall i, j :: 0 <= i < j < |d.order| ==> d.order[i] != d.order[j])
    && (forall k :: k in d.groups <==> k in d.order)
    && (forall k :: k in d.groups ==> d.groups[k] != [])
  }

  /** The dict update for one job: append to the key's list, or start a
      one-element list under a new key. */
  function AddJob(d: TaskDict, key: string, job: Job): TaskDict
  {
    if key in d.groups then d.(groups := d.groups[key := d.groups[key] + [job]])
    else TaskDict(d.order + [key], d.groups[key := [job]])
  }

  /** The dict after the decoded job lines `entries`, in order. */
  function Grouped(entries: seq<(string, Job)>): (d: TaskDict)
    ensures WellFormed(d)
  {
    if entries == [] then TaskDict([], map[])
    else
      var e := entries[|entries| - 1];
      AddJob(Grouped(entries[..|entries| - 1]), e.0, e.1)
  }

  /** The jobs of `entries` with key `key`, in order. */
  function Select(entries: seq<(string, Job)>, key: string): seq<Job>
  {
    if entries == [] then []
    else
      var e := entries[|entries| - 1];
      Select(entries[..|entries| - 1], key) + (if e.0 == key then [e.1] else [])
  }

  /** The number of jobs in the lists of the keys `order`. */
  function TotalJobs(order: seq<string>, groups: map<string, seq<Job>>): nat
  {
    if order == [] then 0
    else
      var k := order[|order| - 1];
      TotalJobs(order[..|order| - 1], groups) + (if k in groups then |groups[k]| else 0)
  }

  /** The job lines `readTextFile` converts, and the kernel snapshot it
      keeps, as one value; the first exception wins. */
  function ReadTextSpec(lines: seq<string>): Result<(seq<Kernel>, TaskDict)>
  {
    var entries :- DecodeEach(JobItems(lines, ClassifyLine), DecodeJobLine);
    var kernels :- KernelData(lines, ClassifyLine, DecodeKstatsLine);
    Ok((kernels, Grouped(entries)))
  }

  /** The data-line branch of `readTextFile`: convert the line and append
      the job to its task's list, opening the list on the task's first job. */
  method ReadJobLine(line: string, order: seq<string>, groups: map<string, seq<Job>>)
    returns (r: Result<(seq<string>, map<string, seq<Job>>)>)
    ensures DecodeJobLine(line).Err? ==> r == Err(DecodeJobLine(line).error)
    ensures DecodeJobLine(line).Ok? ==>
              && r.Ok?
              && TaskDict(r.value.0, r.value.1) ==
                 AddJob(TaskDict(order, groups), DecodeJobLine(line).value.0, DecodeJobLine(line).value.1)
  {
    var job := DecodeJobLine(line);
    if job.Err? {
      return Err(job.error);
    }
    var (taskNo, newJob) := job.value;
    var order', groups' := order, groups;
    if taskNo in groups' {
      groups' := groups'[taskNo := groups'[taskNo] + [newJob]];
    } else {
      order' := order' + [taskNo];
      groups' := groups'[taskNo := [newJob]];
    }
    return Ok((order', groups'));
  }

  /** What one pass of the `for line in infile` loop leaves: the loop goes
      on with the section flag and the dict, or the function ends with a
      result (after the `kstats` line, or on an exception). */
  datatype LineOutcome =
    | Continue(datasection: bool, order: seq<string>, groups: map<string, seq<Job>>)
    | Stop(result: Result<(seq<Kernel>, TaskDict)>)

  /** One pass of the loop of `readTextFile`, on `line`, with the section flag
      and the dict so far (the dict of the decoded jobs `entries`). */
  method ReadLine(line: string, datasection: bool, order: seq<string>, groups: map<string, seq<Job>>)
    returns (out: LineOutcome)
    ensures out.Continue? <==>
              ClassifyLine(line) != Kstats && !(datasection && ClassifyLine(line) == Record && DecodeJobLine(line).Err?)
    ensures out.Continue? ==>
              && out.datasection == (datasection || ClassifyLine(line) == Header)
              && TaskDict(out.order, out.groups) == DictAfter(TaskDict(order, groups), line, datasection)
    ensures out.Stop? && ClassifyLine(line) == Kstats ==>
              out.result == match DecodeKstatsLine(line)
                            case Ok(k) => Ok(([k], TaskDict(order, groups)))
                            case Err(e) => Err(e)
    ensures out.Stop? && ClassifyLine(line) != Kstats ==>
              DecodeJobLine(line).Err? && out.result == Err(DecodeJobLine(line).error)
  {
    if PrefixSlice(line, 7) == "task_id" {
      return Continue(true, order, groups);
    } else if PrefixSlice(line, 6) == "kstats" {
      var kernel := ReadKstatsLine(line);
      if kernel.Err? {
        return Stop(Err(kernel.error));
      }
      var kernelData := [kernel.value];
      return Stop(Ok((kernelData, TaskDict(order, groups))));
    } else if line != "\n" && datasection {
      var added := ReadJobLine(line, order, groups);
      if added.Err? {
        return Stop(Err(added.error));
      }
      return Continue(datasection, added.value.0, added.value.1);
    }
    return Continue(datasection, order, groups);
  }

  /** The decoded jobs after `line`: one more when it is a data line inside
      the section that converts. */
  function EntriesAfter(entries: seq<(string, Job)>, line: string, datasection: bool): seq<(string, Job)>
  {
    if datasection && ClassifyLine(line) == Record && DecodeJobLine(line).Ok? then entries + [DecodeJobLine(line).value]
    else entries
  }

  /** The dict after `line`: the line's job added when it is a data line
      inside the section that converts. */
  function DictAfter(d: TaskDict, line: string, datasection: bool): TaskDict
  {
    if datasection && ClassifyLine(line) == Record && DecodeJobLine(line).Ok?
    then AddJob(d, DecodeJobLine(line).value.0, DecodeJobLine(line).value.1)
    else d
  }

  /** The dict of the decoded jobs follows the dict updates line by line. */
  lemma GroupedAfter(entries: seq<(string, Job)>, line: string, datasection: bool)
    ensures Grouped(EntriesAfter(entries, line, datasection)) == DictAfter(Grouped(entries), line, datasection)
  {
    if datasection && ClassifyLine(line) == Record && DecodeJobLine(line).Ok? {
      GroupedSnoc(entries, DecodeJobLine(line).value.0, DecodeJobLine(line).value.1);
    }
  }

  /** `readTextFile(infile_path)` on the lines of the file. */
  method ReadTextFile(lines: seq<string>) returns (r: Result<(seq<Kernel>, TaskDict)>)
    ensures r == ReadTextSpec(lines)
  {
    var order: seq<string> := [];
    var groups: map<string, seq<Job>> := map[];
    var datasection := false;
    ghost var entries: seq<(string, Job)> := [];
    var i := 0;
    while i < |lines|
      invariant i <= |lines|
      invariant ScanPrefix(lines, ClassifyLine, DecodeJobLine, i) == ScanState(false, datasection, Ok(entries))
      invariant TaskDict(order, groups) == Grouped(entries)
    {
      var out := ReadLine(lines[i], datasection, order, groups);
      if out.Stop? {
        ReadTextStops(lines, i, datasection, entries);
        return out.result;
      }
      ScanLine(lines, i, datasection, entries);
      GroupedAfter(entries, lines[i], datasection);
      entries := EntriesAfter(entries, lines[i], datasection);
      datasection, order, groups := out.datasection, out.order, out.groups;
      i := i + 1;
    }
    ReadTextAtEnd(lines, datasection, entries);
    return Ok(([], TaskDict(order, groups)));
  }

  lemma GroupedSnoc(entries: seq<(string, Job)>, key: string, job: Job)
    ensures Grouped(entries + [(key, job)]) == AddJob(Grouped(entries), key, job)
  {
    assert (entries + [(key, job)])[|entries|] == (key, job);
    assert (entries + [(key, job)])[..|entries|] == entries;
  }

  /** Without a `kstats` line the result is the jobs and no snapshot. */
  lemma ReadTextAtEnd(lines: seq<string>, inData: bool, entries: seq<(string, Job)>)
    requires ScanPrefix(lines, ClassifyLine, DecodeJobLine, |lines|) == ScanState(false, inData, Ok(entries))
    ensures ReadTextSpec(lines) == Ok(([], Grouped(entries)))
  {
    ScanPrefixScanned(lines, ClassifyLine, DecodeJobLine, |lines|, inData, entries);
    ScanEnd(lines, ClassifyLine, DecodeJobLine, inData, entries);
  }

  /** Where a pass of the loop ends the function, at the `kstats` line or
      at a data line that raises, the result is settled. */
  lemma ReadTextStops(lines: seq<string>, i: nat, inData: bool, entries: seq<(string, Job)>)
    requires i < |lines| && ScanPrefix(lines, ClassifyLine, DecodeJobLine, i) == ScanState(false, inData, Ok(entries))
    ensures ClassifyLine(lines[i]) == Kstats ==>
              ReadTextSpec(lines) == match DecodeKstatsLine(lines[i])
                                     case Ok(k) => Ok(([k], Grouped(entries)))
                                     case Err(e) => Err(e)
    ensures inData && ClassifyLine(lines[i]) == Record && DecodeJobLine(lines[i]).Err? ==>
              ReadTextSpec(lines) == Err(DecodeJobLine(lines[i]).error)
  {
    ScanPrefixScanned(lines, ClassifyLine, DecodeJobLine, i, inData, entries);
    if ClassifyLine(lines[i]) == Kstats {
      ScanKstats(lines, ClassifyLine, DecodeJobLine, i, inData, entries);
    } else if inData && ClassifyLine(lines[i]) == Record && DecodeJobLine(lines[i]).Err? {
      ScanRecordRaises(lines, ClassifyLine, DecodeJobLine, i, entries);
    }
  }

  /** A line the loop goes on past moves the item-by-item reader one step:
      a header switches the section on, and a data line inside it adds its job. */
  lemma ScanLine(lines: seq<string>, i: nat, inData: bool, entries: seq<(string, Job)>)
    requires i < |lines| && ScanPrefix(lines, ClassifyLine, DecodeJobLine, i) == ScanState(false, inData, Ok(entries))
    requires ClassifyLine(lines[i]) != Kstats
    requires !(inData && ClassifyLine(lines[i]) == Record && DecodeJobLine(lines[i]).Err?)
    ensures ScanPrefix(lines, ClassifyLine, DecodeJobLine, i + 1) ==
              ScanState(false, inData || ClassifyLine(lines[i]) == Header, Ok(EntriesAfter(entries, lines[i], inData)))
  {
  }

  // ---------------------------------------------------------------------------
  // Facts about readTextFile

  /** Each task's list holds exactly the jobs of its key, in file order, and
      a key is in the dict exactly when some job carries it. */
  lemma {:induction false} GroupedSelect(entries: seq<(string, Job)>, key: string)
    ensures key in Grouped(entries).groups <==> Select(entries, key) != []
    ensures key in Grouped(entries).groups ==> Grouped(entries).groups[key] == Select(entries, key)
  {
    if entries != [] {
      GroupedSelect(entries[..|entries| - 1], key);
    }
  }

  lemma {:induction false} TotalJobsFrame(order: seq<string>, groups: map<string, seq<Job>>, key: string, v: seq<Job>)
    requires key !in order
    ensures TotalJobs(order, groups[key := v]) == TotalJobs(order, groups)
  {
    if order != [] {
      TotalJobsFrame(order[..|order| - 1], groups, key, v);
    }
  }

  lemma {:induction false} TotalJobsBump(order: seq<string>, groups: map<string, seq<Job>>, key: string, v: seq<Job>)
    requires key in order && key in groups
    requires forall i, j :: 0 <= i < j < |order| ==> order[i] != order[j]
    ensures TotalJobs(order, groups[key := v]) == TotalJobs(order, groups) - |groups[key]| + |v|
  {
    var init := order[..|order| - 1];
    if order[|order| - 1] == key {
      assert key !in init by {
        forall i | 0 <= i < |init| ensures init[i] != key {
          assert init[i] == order[i];
        }
      }
      TotalJobsFrame(init, groups, key, v);
    } else {
      var i :| 0 <= i < |order| && order[i] == key;
      assert init[i] == key;
      TotalJobsBump(init, groups, key, v);
    }
  }

  /** No job is lost or counted twice: the lists of the dict hold one job
      per decoded job line. */
  lemma {:induction false} GroupedTotal(entries: seq<(string, Job)>)
    ensures TotalJobs(Grouped(entries).order, Grouped(entries).groups) == |entries|
  {
    if entries != [] {
      var init := entries[..|entries| - 1];
      var (key, job) := entries[|entries| - 1];
      var d := Grouped(init);
      GroupedTotal(init);
      if key in d.groups {
        TotalJobsBump(d.order, d.groups, key, d.groups[key] + [job]);
      } else {
        TotalJobsFrame(d.order, d.groups, key, [job]);
      }
    }
  }

  /** What a successful read returns: at most one snapshot, present exactly
      when the log has a `kstats` line and decoded from the first one, and
      a well-formed dict holding one job per job line. */
  lemma ReadTextShape(lines: seq<string>)
    requires ReadTextSpec(lines).Ok?
    ensures var (kernels, d) := ReadTextSpec(lines).value;
            && |kernels| <= 1
            && (kernels == [] <==> KstatsItem(lines, ClassifyLine) == None)
            && (kernels != [] ==> DecodeKstatsLine(KstatsItem(lines, ClassifyLine).value) == Ok(kernels[0]))
            && WellFormed(d)
            && TotalJobs(d.order, d.groups) == |JobItems(lines, ClassifyLine)|
  {
    var entries := DecodeEach(JobItems(lines, ClassifyLine), DecodeJobLine).value;
    GroupedTotal(entries);
  }

  /** The read succeeds exactly when every job line decodes and the
      `kstats` line, if there is one, decodes; a job line's exception comes
      before the snapshot's. */
  lemma ReadTextSucceedsIff(lines: seq<string>)
    ensures ReadTextSpec(lines).Ok? <==>
              && (forall j :: 0 <= j < |JobItems(lines, ClassifyLine)| ==> DecodeJobLine(JobItems(lines, ClassifyLine)[j]).Ok?)
              && (KstatsItem(lines, ClassifyLine).Some? ==> DecodeKstatsLine(KstatsItem(lines, ClassifyLine).value).Ok?)
    ensures DecodeEach(JobItems(lines, ClassifyLine), DecodeJobLine).Err? ==>
              ReadTextSpec(lines) == Err(DecodeEach(JobItems(lines, ClassifyLine), DecodeJobLine).error)
  {
    DecodeEachMeaning(JobItems(lines, ClassifyLine), DecodeJobLine);
  }

  /** Lines before the first header or `kstats` line change nothing. */
  lemma ReadTextIgnoresPreamble(pre: seq<string>, rest: seq<string>)
    requires forall j :: 0 <= j < |pre| ==> ClassifyLine(pre[j]) != Header && ClassifyLine(pre[j]) != Kstats
    ensures ReadTextSpec(pre + rest) == ReadTextSpec(rest)
  {
    PreambleIgnored(pre, rest, ClassifyLine);
    ReadTextSpecOf(pre + rest, rest);
  }

  /** Nothing after the first `kstats` line is read. */
  lemma ReadTextStopsAtKstats(lines: seq<string>, post: seq<string>)
    requires KstatsItem(lines, ClassifyLine).Some?
    ensures ReadTextSpec(lines + post) == ReadTextSpec(lines)
  {
    StopsAtKstats(lines, post, ClassifyLine);
    ReadTextSpecOf(lines + post, lines);
  }

  /** The read depends on the job lines and the `kstats` line only. */
  lemma ReadTextSpecOf(a: seq<string>, b: seq<string>)
    requires JobItems(a, ClassifyLine) == JobItems(b, ClassifyLine)
    requires KstatsItem(a, ClassifyLine) == KstatsItem(b, ClassifyLine)
    ensures ReadTextSpec(a) == ReadTextSpec(b)
  {
    assert KernelData(a, ClassifyLine, DecodeKstatsLine) == KernelData(b, ClassifyLine, DecodeKstatsLine);
  }

  /** The eight values of a job, in the order of the fields of its line. */
  function JobValues(j: Job): seq<int>
  {
    [j.taskId, j.jobId, j.releaseMs, j.startMs, j.finishMs, j.deadlineMs, j.critical, j.deadlineMet]
  }

  /** A job line with the eight fields this reader expects, as a harness
      that also prints the criticality would write it: the printed values
      joined by commas, the last one followed by the newline. */
  function JobRecordLine(j: Job): string
  {
    var fs := Printed(JobValues(j));
    Join(fs[..7] + [fs[7] + "\n"], ',')
  }

  /** Such a line reads back as its job, keyed by the printed task id, as
      long as the last field is one digit (the reader keeps only the first
      character of the last field). */
  lemma JobRecordLineDecodes(j: Job)
    requires 0 <= j.deadlineMet <= 9
    ensures DecodeJobLine(JobRecordLine(j)) == Ok((IntToString(j.taskId), j))
  {
    var vs := JobValues(j);
    var fs := Printed(vs);
    JobRecordLineSplits(j);
    assert fs[7] == [DigitChar(j.deadlineMet)];
    TruncateLineEnd(fs[..7], fs[7]);
    assert fs[..7] + [fs[7]] == fs;
    IntFieldsOfPrinted(vs, 8);
    assert vs[..8] == vs;
  }

  /** Splitting such a line at its commas gives back the printed fields,
      the newline still on the last. */
  lemma JobRecordLineSplits(j: Job)
    ensures Split(JobRecordLine(j), ',') == Printed(JobValues(j))[..7] + [Printed(JobValues(j))[7] + "\n"]
  {
    var vs := JobValues(j);
    var fs := Printed(vs);
    var pieces := fs[..7] + [fs[7] + "\n"];
    forall k | 0 <= k < 8 ensures ',' !in pieces[k] {
      HarnessFormat.IntToStringNoSep(vs[k], ',');
    }
    SplitJoin(pieces, ',');
  }

  /** A job line as the harness prints it (seven fields) has no eighth
      field, so converting it raises IndexError. */
  lemma HarnessJobLineRejected(r: HarnessFormat.JobLog)
    ensures DecodeJobLine(HarnessFormat.JobLine(r)) == Err(IndexError)
  {
    HarnessFormat.JobLineSplits(r);
    HarnessFormat.JobFieldsTruncated(r);
    IntFieldsOfPrinted(HarnessFormat.JobValues(r), 8);
  }

  /** Fed a harness log with at least one job, this reader raises
      IndexError at the first job line. */
  lemma HarnessLogRejected(boot: seq<string>, threads: nat, rs: seq<HarnessFormat.JobLog>, ks: SchedDiag.Stats)
    requires HarnessFormat.Inert(boot) && rs != []
    ensures ReadTextSpec(HarnessFormat.HarnessLog(boot, threads, rs, ks)) == Err(IndexError)
  {
    var items := HarnessFormat.JobLines(rs);
    HarnessFormat.HarnessLogScan(boot, threads, rs, ks);
    forall j | 0 <= j < |items| ensures DecodeJobLine(items[j]) == Err(IndexError) {
      HarnessJobLineRejected(rs[j]);
    }
    DecodeEachMeaning(items, DecodeJobLine);
  }

  // ---------------------------------------------------------------------------
  // calculations_and_graphs

  /** The wait of a job: `start_ms - release_ms`. */
  function Wait(j: Job): int { j.startMs - j.releaseMs }

  /** The waits of `jobs`, in order. */
  function Waits(jobs: seq<Job>): (r: seq<int>)
    ensures |r| == |jobs|
  {
    if jobs == [] then [] else Waits(jobs[..|jobs| - 1]) + [Wait(jobs[|jobs| - 1])]
  }

  /** The `[start_ms, finish_ms]` pairs of `jobs`, in order. */
  function Intervals(jobs: seq<Job>): (r: seq<(int, int)>)
    ensures |r| == |jobs|
  {
    if jobs == [] then []
    else Intervals(jobs[..|jobs| - 1]) + [(jobs[|jobs| - 1].startMs, jobs[|jobs| - 1].finishMs)]
  }

  /** The jobs with `critical == 1`, in order. */
  function Critical(jobs: seq<Job>): seq<Job>
  {
    if jobs == [] then []
    else Critical(jobs[..|jobs| - 1]) + (if jobs[|jobs| - 1].critical == 1 then [jobs[|jobs| - 1]] else [])
  }

  /** The jobs with `critical != 1`, in order. */
  function NonCritical(jobs: seq<Job>): seq<Job>
  {
    if jobs == [] then []
    else NonCritical(jobs[..|jobs| - 1]) + (if jobs[|jobs| - 1].critical != 1 then [jobs[|jobs| - 1]] else [])
  }

  /** The number of jobs with `deadline_met == 0`. */
  function Missed(jobs: seq<Job>): nat
  {
    if jobs == [] then 0
    else Missed(jobs[..|jobs| - 1]) + (if jobs[|jobs| - 1].deadlineMet == 0 then 1 else 0)
  }

  /** The job lists of the tasks one after the other. */
  function Flatten(tasks: seq<seq<Job>>): seq<Job>
  {
    if tasks == [] then [] else Flatten(tasks[..|tasks| - 1]) + tasks[|tasks| - 1]
  }

  /** The lists one after the other. */
  function Concat(ws: seq<seq<int>>): seq<int>
  {
    if ws == [] then [] else Concat(ws[..|ws| - 1]) + ws[|ws| - 1]
  }

  /** `processes_data[str(i)]` for `i` in `range(0, n)`: a missing key raises
      `KeyError`, and a task with no jobs raises `ZeroDivisionError` at its
      average, before the next key is looked up. */
  function TaskList(groups: map<string, seq<Job>>, n: nat): (r: Result<seq<seq<Job>>>)
    ensures r.Ok? ==> |r.value| == n && NoEmptyTask(r.value)
  {
    if n == 0 then Ok([])
    else
      var prev :- TaskList(groups, n - 1);
      var key := IntToString(n - 1);
      if key !in groups then Err(KeyError(key))
      else if groups[key] == [] then Err(ZeroDivisionError)
      else Ok(prev + [groups[key]])
  }

  predicate NoEmptyTask(tasks: seq<seq<Job>>)
  {
    forall k :: 0 <= k < |tasks| ==> tasks[k] != []
  }

  /** Key `str(i)` is in the dict with at least one job. */
  predicate HasJobs(groups: map<string, seq<Job>>, i: nat)
  {
    IntToString(i) in groups && groups[IntToString(i)] != []
  }

  /** `wait_time`: the waits of each task. */
  function WaitTimes(tasks: seq<seq<Job>>): (r: seq<seq<int>>)
    ensures |r| == |tasks|
  {
    if tasks == [] then [] else WaitTimes(tasks[..|tasks| - 1]) + [Waits(tasks[|tasks| - 1])]
  }

  /** `overall_visual`: the intervals of each task. */
  function Visuals(tasks: seq<seq<Job>>): (r: seq<seq<(int, int)>>)
    ensures |r| == |tasks|
  {
    if tasks == [] then [] else Visuals(tasks[..|tasks| - 1]) + [Intervals(tasks[|tasks| - 1])]
  }

  /** `average_wait_process`: the mean wait of each task. */
  function TaskMeans(tasks: seq<seq<Job>>): (r: seq<real>)
    requires NoEmptyTask(tasks)
    ensures |r| == |tasks|
  {
    if tasks == [] then [] else TaskMeans(tasks[..|tasks| - 1]) + [Mean(Waits(tasks[|tasks| - 1]))]
  }

  /** `median_wait_process`: the median wait of each task. */
  function TaskMedians(tasks: seq<seq<Job>>): (r: seq<real>)
    requires NoEmptyTask(tasks)
    ensures |r| == |tasks|
  {
    if tasks == [] then [] else TaskMedians(tasks[..|tasks| - 1]) + [Median(Waits(tasks[|tasks| - 1]))]
  }

  /** `str(missed) + "/" + str(total)`. */
  function Ratio(missed: int, total: int): string
  {
    IntToString(missed) + "/" + IntToString(total)
  }

  /** The `stats` dict, entry by entry. */
  datatype Stats = Stats(
    allDeadlinesMet: bool,         // "All deadlines were met"
    missedDeadlines: string,       // "(Missed deadlines)"
    missedCritical: string,        // "Missed Critical Deadlines"
    missedNonCritical: string,     // "Missed non-Critical Deadlines"
    averageWait: real,             // "Average Wait Time (ms)"
    averagesPerTask: seq<real>,    // "Avgs per Task (ms)"
    medianWait: real,              // "Median Wait Time (ms)"
    mediansPerTask: seq<real>,     // "Meds per Task (ms)"
    maxTasksInQueue: int,          // "Max Number of Tasks in Queue"
    tasksInQueueAtCompletion: int, // "Tasks in Queue at Completion"
    totalPreemptions: int,         // "Total preemptions"
    totalContextSwitches: int)     // "Total context switches"

  /** What `calculations_and_graphs` computes: the `stats` dict it returns,
      and the `wait_time` and `overall_visual` lists its plots draw. */
  datatype Figures = Figures(stats: Stats, waitTime: seq<seq<int>>, overallVisual: seq<seq<(int, int)>>)

  /** `calculations_and_graphs(kernel_data, processes_data)` as one value:
      the tasks by key `str(i)`; with no job at all the pooled average
      divides by zero; without a kernel snapshot `kernel_data[0]` raises. */
  function CalculationsSpec(kernelData: seq<Kernel>, processesData: TaskDict): Result<Figures>
  {
    var tasks :- TaskList(processesData.groups, |processesData.groups|);
    var jobs := Flatten(tasks);
    if jobs == [] then Err(ZeroDivisionError)
    else if kernelData == [] then Err(IndexError)
    else
      var k := kernelData[0];
      var critical, nonCritical := Critical(jobs), NonCritical(jobs);
      Ok(Figures(
        Stats(Missed(jobs) == 0, Ratio(Missed(jobs), |jobs|),
              Ratio(Missed(critical), |critical|), Ratio(Missed(nonCritical), |nonCritical|),
              Mean(Waits(jobs)), TaskMeans(tasks), Median(Waits(jobs)), TaskMedians(tasks),
              k.readyqMax, k.readyqCur, k.preempt, k.ctx),
        WaitTimes(tasks), Visuals(tasks)))
  }

  /** The accumulators of the job loop: `num_total_jobs`, the running sum
      `average_wait_overall`, `median_wait`, `deadlines_missed`, and the
      (missed, total) pairs `critical_deadlines_missed` and
      `non_critical_deadlines_missed`. */
  datatype Tally = Tally(numTotalJobs: int, averageWaitOverall: int, medianWait: seq<int>, deadlinesMissed: int,
                         criticalDeadlinesMissed: MissedOf, nonCriticalDeadlinesMissed: MissedOf)

  /** A two-element list `[missed, total]`. */
  datatype MissedOf = MissedOf(missed: int, total: int)

  /** The accumulators after the jobs `seen`, one job at a time. */
  function TallyOf(seen: seq<Job>): Tally
  {
    if seen == [] then Tally(0, 0, [], 0, MissedOf(0, 0), MissedOf(0, 0))
    else TallyNext(TallyOf(seen[..|seen| - 1]), seen[|seen| - 1])
  }

  /** The accumulators after one more job. */
  function TallyNext(t: Tally, job: Job): Tally
  {
    var missed := if job.deadlineMet == 0 then 1 else 0;
    var c, nc := t.criticalDeadlinesMissed, t.nonCriticalDeadlinesMissed;
    Tally(t.numTotalJobs + 1, t.averageWaitOverall + Wait(job), t.medianWait + [Wait(job)],
          t.deadlinesMissed + missed,
          if job.critical == 1 then MissedOf(c.missed + missed, c.total + 1) else c,
          if job.critical == 1 then nc else MissedOf(nc.missed + missed, nc.total + 1))
  }

  /** The accumulators `t` after the jobs `proc`, one job at a time. */
  function TallyAfter(t: Tally, proc: seq<Job>): Tally
  {
    if proc == [] then t else TallyNext(TallyAfter(t, proc[..|proc| - 1]), proc[|proc| - 1])
  }

  /** The job loop of `calculations_and_graphs` over one task's jobs `proc`:
      it moves the accumulators by those jobs, and builds the task's
      `temp_wait_time` and `temp_visual`. */
  method VisitJobs(proc: seq<Job>,
                   numTotalJobs: int, averageWaitOverall: int, medianWait: seq<int>,
                   deadlinesMissed: int, criticalDeadlinesMissed: MissedOf, nonCriticalDeadlinesMissed: MissedOf)
    returns (numTotalJobs': int, averageWaitOverall': int, medianWait': seq<int>,
             deadlinesMissed': int, criticalDeadlinesMissed': MissedOf, nonCriticalDeadlinesMissed': MissedOf,
             tempWaitTime: seq<int>, tempVisual: seq<(int, int)>)
    ensures Tally(numTotalJobs', averageWaitOverall', medianWait', deadlinesMissed',
                  criticalDeadlinesMissed', nonCriticalDeadlinesMissed') ==
            TallyAfter(Tally(numTotalJobs, averageWaitOverall, medianWait, deadlinesMissed,
                             criticalDeadlinesMissed, nonCriticalDeadlinesMissed), proc)
    ensures tempWaitTime == Waits(proc) && tempVisual == Intervals(proc)
  {
    numTotalJobs', averageWaitOverall', medianWait' := numTotalJobs, averageWaitOverall, medianWait;
    deadlinesMissed', criticalDeadlinesMissed', nonCriticalDeadlinesMissed' :=
      deadlinesMissed, criticalDeadlinesMissed, nonCriticalDeadlinesMissed;
    tempWaitTime, tempVisual := [], [];
    ghost var start := Tally(numTotalJobs, averageWaitOverall, medianWait, deadlinesMissed,
                             criticalDeadlinesMissed, nonCriticalDeadlinesMissed);
    for j := 0 to |proc|
      invariant Tally(numTotalJobs', averageWaitOverall', medianWait', deadlinesMissed',
                      criticalDeadlinesMissed', nonCriticalDeadlinesMissed') == TallyAfter(start, proc[..j])
      invariant tempWaitTime == Waits(proc[..j]) && tempVisual == Intervals(proc[..j])
    {
      var job := proc[j];
      VisitStep(start, proc, j);
      var wait := job.startMs - job.releaseMs;
      tempWaitTime := tempWaitTime + [wait];
      numTotalJobs', averageWaitOverall', medianWait', deadlinesMissed',
        criticalDeadlinesMissed', nonCriticalDeadlinesMissed' :=
        CountJob(job, numTotalJobs', averageWaitOverall', medianWait', deadlinesMissed',
                 criticalDeadlinesMissed', nonCriticalDeadlinesMissed');
      tempVisual := tempVisual + [(job.startMs, job.finishMs)];
    }
    assert proc[..|proc|] == proc;
  }

  /** The body of the job loop for one job: it counts the job, adds its
      wait to the running sum and the pooled list, and counts a missed
      deadline overall and in the job's criticality class. */
  method CountJob(job: Job, numTotalJobs: int, averageWaitOverall: int, medianWait: seq<int>,
                  deadlinesMissed: int, criticalDeadlinesMissed: MissedOf, nonCriticalDeadlinesMissed: MissedOf)
    returns (numTotalJobs': int, averageWaitOverall': int, medianWait': seq<int>,
             deadlinesMissed': int, criticalDeadlinesMissed': MissedOf, nonCriticalDeadlinesMissed': MissedOf)
    ensures Tally(numTotalJobs', averageWaitOverall', medianWait', deadlinesMissed',
                  criticalDeadlinesMissed', nonCriticalDeadlinesMissed') ==
            TallyNext(Tally(numTotalJobs, averageWaitOverall, medianWait, deadlinesMissed,
                            criticalDeadlinesMissed, nonCriticalDeadlinesMissed), job)
  {
    numTotalJobs' := numTotalJobs + 1;
    var wait := job.startMs - job.releaseMs;
    averageWaitOverall' := averageWaitOverall + wait;
    medianWait' := medianWait + [wait];
    deadlinesMissed' := deadlinesMissed;
    if job.deadlineMet == 0 {
      deadlinesMissed' := deadlinesMissed' + 1;
    }
    criticalDeadlinesMissed', nonCriticalDeadlinesMissed' := criticalDeadlinesMissed, nonCriticalDeadlinesMissed;
    if job.critical == 1 {
      criticalDeadlinesMissed' := criticalDeadlinesMissed'.(total := criticalDeadlinesMissed'.total + 1);
      if job.deadlineMet == 0 {
        criticalDeadlinesMissed' := criticalDeadlinesMissed'.(missed := criticalDeadlinesMissed'.missed + 1);
      }
    } else {
      nonCriticalDeadlinesMissed' := nonCriticalDeadlinesMissed'.(total := nonCriticalDeadlinesMissed'.total + 1);
      if job.deadlineMet == 0 {
        nonCriticalDeadlinesMissed' := nonCriticalDeadlinesMissed'.(missed := nonCriticalDeadlinesMissed'.missed + 1);
      }
    }
  }

  /** `calculations_and_graphs(kernel_data, processes_data)`, without the plots. */
  method CalculationsAndGraphs(kernelData: seq<Kernel>, processesData: TaskDict) returns (r: Result<Figures>)
    ensures r == CalculationsSpec(kernelData, processesData)
  {
    var deadlinesMissed := 0;
    var criticalDeadlinesMissed := MissedOf(0, 0);
    var nonCriticalDeadlinesMissed := MissedOf(0, 0);
    var averageWaitOverall := 0;
    var averageWaitProcess: seq<real> := [];
    var medianWaitProcess: seq<real> := [];
    var waitTime: seq<seq<int>> := [];
    var medianWait: seq<int> := [];
    var overallVisual: seq<seq<(int, int)>> := [];
    var numTotalJobs := 0;
    var groups := processesData.groups;
    ghost var tasks: seq<seq<Job>> := [];

    for i := 0 to |groups|
      invariant TaskList(groups, i) == Ok(tasks)
      invariant Tally(numTotalJobs, averageWaitOverall, medianWait, deadlinesMissed,
                      criticalDeadlinesMissed, nonCriticalDeadlinesMissed) == TallyOf(Flatten(tasks))
      invariant waitTime == WaitTimes(tasks) && overallVisual == Visuals(tasks)
      invariant averageWaitProcess == TaskMeans(tasks) && medianWaitProcess == TaskMedians(tasks)
    {
      var key := IntToString(i);
      if key !in groups {
        TaskListFails(groups, i + 1, |groups|);
        CalculationsSpecFails(kernelData, processesData);
        return Err(KeyError(key));
      }
      var proc := groups[key];
      var tempWaitTime, tempVisual;
      numTotalJobs, averageWaitOverall, medianWait, deadlinesMissed, criticalDeadlinesMissed,
        nonCriticalDeadlinesMissed, tempWaitTime, tempVisual :=
        VisitJobs(proc, numTotalJobs, averageWaitOverall, medianWait,
                  deadlinesMissed, criticalDeadlinesMissed, nonCriticalDeadlinesMissed);
      waitTime := waitTime + [tempWaitTime];
      overallVisual := overallVisual + [tempVisual];
      if |tempWaitTime| == 0 {
        TaskListFails(groups, i + 1, |groups|);
        CalculationsSpecFails(kernelData, processesData);
        return Err(ZeroDivisionError);
      }
      averageWaitProcess := averageWaitProcess + [Mean(tempWaitTime)];
      medianWaitProcess := medianWaitProcess + [Median(tempWaitTime)];
      TaskStep(tasks, proc);
      TallyOfConcat(Flatten(tasks), proc);
      tasks := tasks + [proc];
    }

    TallyOfMeaning(Flatten(tasks));
    CalculationsSpecOf(kernelData, processesData, tasks);
    if numTotalJobs == 0 {
      return Err(ZeroDivisionError);
    }
    var averageWait := averageWaitOverall as real / numTotalJobs as real;
    var medianWaitOverall := Median(medianWait);
    if |kernelData| == 0 {
      return Err(IndexError);
    }
    var stats := Stats(deadlinesMissed == 0, Ratio(deadlinesMissed, numTotalJobs),
                       Ratio(criticalDeadlinesMissed.missed, criticalDeadlinesMissed.total),
                       Ratio(nonCriticalDeadlinesMissed.missed, nonCriticalDeadlinesMissed.total),
                       averageWait, averageWaitProcess, medianWaitOverall, medianWaitProcess,
                       kernelData[0].readyqMax, kernelData[0].readyqCur,
                       kernelData[0].preempt, kernelData[0].ctx);
    return Ok(Figures(stats, waitTime, overallVisual));
  }

  lemma CalculationsSpecFails(kernelData: seq<Kernel>, processesData: TaskDict)
    requires TaskList(processesData.groups, |processesData.groups|).Err?
    ensures CalculationsSpec(kernelData, processesData) == Err(TaskList(processesData.groups, |processesData.groups|).error)
  {
  }

  /** Once every task is found, the result depends on the jobs alone. */
  lemma CalculationsSpecOf(kernelData: seq<Kernel>, processesData: TaskDict, tasks: seq<seq<Job>>)
    requires TaskList(processesData.groups, |processesData.groups|) == Ok(tasks)
    ensures Flatten(tasks) == [] ==> CalculationsSpec(kernelData, processesData) == Err(ZeroDivisionError)
    ensures Flatten(tasks) != [] && kernelData == [] ==> CalculationsSpec(kernelData, processesData) == Err(IndexError)
    ensures Flatten(tasks) != [] && kernelData != [] ==>
              var jobs, k := Flatten(tasks), kernelData[0];
              CalculationsSpec(kernelData, processesData) ==
                Ok(Figures(
                  Stats(Missed(jobs) == 0, Ratio(Missed(jobs), |jobs|),
                        Ratio(Missed(Critical(jobs)), |Critical(jobs)|), Ratio(Missed(NonCritical(jobs)), |NonCritical(jobs)|),
                        Sum(Waits(jobs)) as real / |jobs| as real, TaskMeans(tasks), Median(Waits(jobs)), TaskMedians(tasks),
                        k.readyqMax, k.readyqCur, k.preempt, k.ctx),
                  WaitTimes(tasks), Visuals(tasks)))
  {
  }

  lemma TallyOfSnoc(seen: seq<Job>, job: Job)
    ensures TallyOf(seen + [job]) == TallyNext(TallyOf(seen), job)
  {
    assert (seen + [job])[..|seen|] == seen;
  }

  /** The accumulators count what they are named for: the jobs, the sum and
      the list of their waits, the missed deadlines, and the (missed, total)
      pairs of the critical and the other jobs. */
  lemma TallyOfMeaning(seen: seq<Job>)
    ensures TallyOf(seen) ==
              Tally(|seen|, Sum(Waits(seen)), Waits(seen), Missed(seen),
                    MissedOf(Missed(Critical(seen)), |Critical(seen)|),
                    MissedOf(Missed(NonCritical(seen)), |NonCritical(seen)|))
  {
    TallyCounts(seen);
    TallyWaits(seen);
    TallyCritical(seen);
    TallyNonCritical(seen);
  }

  lemma {:induction false} TallyCounts(seen: seq<Job>)
    ensures TallyOf(seen).numTotalJobs == |seen| && TallyOf(seen).deadlinesMissed == Missed(seen)
  {
    if seen != [] {
      TallyCounts(seen[..|seen| - 1]);
    }
  }

  lemma {:induction false} TallyWaits(seen: seq<Job>)
    ensures TallyOf(seen).medianWait == Waits(seen)
    ensures TallyOf(seen).averageWaitOverall == Sum(Waits(seen))
  {
    if seen != [] {
      var init, job := seen[..|seen| - 1], seen[|seen| - 1];
      TallyWaits(init);
      var ws := Waits(init);
      assert (ws + [Wait(job)])[..|ws|] == ws;
    }
  }

  lemma {:induction false} TallyCritical(seen: seq<Job>)
    ensures TallyOf(seen).criticalDeadlinesMissed == MissedOf(Missed(Critical(seen)), |Critical(seen)|)
  {
    if seen != [] {
      var init, job := seen[..|seen| - 1], seen[|seen| - 1];
      TallyCritical(init);
      var c := Critical(init);
      if job.critical == 1 {
        assert (c + [job])[..|c|] == c;
      } else {
        assert c + [] == c;
      }
    }
  }

  lemma {:induction false} TallyNonCritical(seen: seq<Job>)
    ensures TallyOf(seen).nonCriticalDeadlinesMissed == MissedOf(Missed(NonCritical(seen)), |NonCritical(seen)|)
  {
    if seen != [] {
      var init, job := seen[..|seen| - 1], seen[|seen| - 1];
      TallyNonCritical(init);
      var nc := NonCritical(init);
      if job.critical != 1 {
        assert (nc + [job])[..|nc|] == nc;
      } else {
        assert nc + [] == nc;
      }
    }
  }

  lemma JobListStep(proc: seq<Job>, j: nat)
    requires j < |proc|
    ensures proc[..j + 1] == proc[..j] + [proc[j]]
    ensures Waits(proc[..j + 1]) == Waits(proc[..j]) + [Wait(proc[j])]
    ensures Intervals(proc[..j + 1]) == Intervals(proc[..j]) + [(proc[j].startMs, proc[j].finishMs)]
  {
    assert proc[..j + 1][..j] == proc[..j];
  }

  /** One more job of the loop: the accumulators move by that job and the
      task's two lists grow by its wait and its interval. */
  lemma VisitStep(t: Tally, proc: seq<Job>, j: nat)
    requires j < |proc|
    ensures TallyAfter(t, proc[..j + 1]) == TallyNext(TallyAfter(t, proc[..j]), proc[j])
    ensures Waits(proc[..j + 1]) == Waits(proc[..j]) + [Wait(proc[j])]
    ensures Intervals(proc[..j + 1]) == Intervals(proc[..j]) + [(proc[j].startMs, proc[j].finishMs)]
  {
    JobListStep(proc, j);
  }

  /** Folding the accumulators over the jobs before a task and then over the
      task's jobs is folding them over all those jobs. */
  lemma {:induction false} TallyOfConcat(seen: seq<Job>, proc: seq<Job>)
    ensures TallyOf(seen + proc) == TallyAfter(TallyOf(seen), proc)
    decreases |proc|
  {
    if proc == [] {
      assert seen + proc == seen;
    } else {
      var init := proc[..|proc| - 1];
      TallyOfConcat(seen, init);
      assert seen + proc == (seen + init) + [proc[|proc| - 1]];
      TallyOfSnoc(seen + init, proc[|proc| - 1]);
    }
  }

  /** One more task extends every per-task list by that task alone. */
  lemma TaskStep(tasks: seq<seq<Job>>, proc: seq<Job>)
    requires NoEmptyTask(tasks) && proc != []
    ensures NoEmptyTask(tasks + [proc])
    ensures Flatten(tasks + [proc]) == Flatten(tasks) + proc
    ensures WaitTimes(tasks + [proc]) == WaitTimes(tasks) + [Waits(proc)]
    ensures Visuals(tasks + [proc]) == Visuals(tasks) + [Intervals(proc)]
    ensures TaskMeans(tasks + [proc]) == TaskMeans(tasks) + [Mean(Waits(proc))]
    ensures TaskMedians(tasks + [proc]) == TaskMedians(tasks) + [Median(Waits(proc))]
  {
    assert (tasks + [proc])[..|tasks|] == tasks;
  }

  /** Once a key lookup or a task average raises, every longer run of the
      loop raises the same. */
  lemma {:induction false} TaskListFails(groups: map<string, seq<Job>>, i: nat, n: nat)
    requires i <= n && TaskList(groups, i).Err?
    ensures TaskList(groups, n) == TaskList(groups, i)
    decreases n
  {
    if i < n {
      TaskListFails(groups, i, n - 1);
    }
  }

  // ---------------------------------------------------------------------------
  // Properties of the statistics

  lemma MissedSnoc(jobs: seq<Job>, job: Job)
    ensures Missed(jobs + [job]) == Missed(jobs) + (if job.deadlineMet == 0 then 1 else 0)
  {
    assert (jobs + [job])[..|jobs|] == jobs;
  }

  /** Every job is critical or not: the critical and non-critical totals add
      up to all jobs, and their missed counts to all missed deadlines. */
  lemma {:induction false} CriticalSplit(jobs: seq<Job>)
    ensures |Critical(jobs)| + |NonCritical(jobs)| == |jobs|
    ensures Missed(Critical(jobs)) + Missed(NonCritical(jobs)) == Missed(jobs)
  {
    if jobs != [] {
      var init, job := jobs[..|jobs| - 1], jobs[|jobs| - 1];
      CriticalSplit(init);
      var c, nc := Critical(init), NonCritical(init);
      if job.critical == 1 {
        MissedSnoc(c, job);
        assert nc + [] == nc;
      } else {
        MissedSnoc(nc, job);
        assert c + [] == c;
      }
    }
  }

  /** The missed count is at most the number of jobs, and it is zero exactly
      when no job has `deadline_met == 0`. */
  lemma {:induction false} MissedMeaning(jobs: seq<Job>)
    ensures Missed(jobs) <= |jobs|
    ensures Missed(jobs) == 0 <==> forall k :: 0 <= k < |jobs| ==> jobs[k].deadlineMet != 0
  {
    if jobs != [] {
      var init := jobs[..|jobs| - 1];
      MissedMeaning(init);
      assert forall k :: 0 <= k < |init| ==> init[k] == jobs[k];
    }
  }

  /** Entry `k` of the wait series is job `k`'s wait, and entry `k` of the
      intervals is its `[start_ms, finish_ms]`. */
  lemma {:induction false} SeriesMeaning(jobs: seq<Job>)
    ensures forall k :: 0 <= k < |jobs| ==> Waits(jobs)[k] == jobs[k].startMs - jobs[k].releaseMs
    ensures forall k :: 0 <= k < |jobs| ==> Intervals(jobs)[k] == (jobs[k].startMs, jobs[k].finishMs)
  {
    if jobs != [] {
      var init := jobs[..|jobs| - 1];
      SeriesMeaning(init);
      assert forall k :: 0 <= k < |init| ==> init[k] == jobs[k];
    }
  }

  /** A missed-deadline string splits at "/" into the text of the two
      counts, which read back as the counts. */
  lemma RatioParts(missed: int, total: int)
    ensures Split(Ratio(missed, total), '/') == [IntToString(missed), IntToString(total)]
    ensures ParseInt(Split(Ratio(missed, total), '/')[0]) == Some(missed)
    ensures ParseInt(Split(Ratio(missed, total), '/')[1]) == Some(total)
  {
    var parts := [IntToString(missed), IntToString(total)];
    HarnessFormat.IntToStringNoSep(missed, '/');
    HarnessFormat.IntToStringNoSep(total, '/');
    assert Join(parts, '/') == Ratio(missed, total);
    SplitJoin(parts, '/');
    ParseIntOfString(missed);
    ParseIntOfString(total);
  }

  /** The task lookups succeed exactly when every key `str(i)` below `n` is
      there with jobs. */
  lemma {:induction false} TaskListSucceeds(groups: map<string, seq<Job>>, n: nat)
    ensures TaskList(groups, n).Ok? <==> forall i :: 0 <= i < n ==> HasJobs(groups, i)
  {
    if n > 0 {
      TaskListSucceeds(groups, n - 1);
      if TaskList(groups, n - 1).Err? {
        assert TaskList(groups, n).Err?;
        var i :| 0 <= i < n - 1 && !HasJobs(groups, i);
      } else if !HasJobs(groups, n - 1) {
        assert TaskList(groups, n).Err?;
      }
    }
  }

  /** Successful lookups give the lists of the keys `str(0)` ... `str(n-1)`,
      in that order. */
  lemma {:induction false} TaskListValues(groups: map<string, seq<Job>>, n: nat)
    requires TaskList(groups, n).Ok?
    ensures forall i :: 0 <= i < n ==> IntToString(i) in groups && TaskList(groups, n).value[i] == groups[IntToString(i)]
  {
    if n > 0 {
      var prev := TaskList(groups, n - 1);
      assert prev.Ok?;
      TaskListValues(groups, n - 1);
      assert TaskList(groups, n).value == prev.value + [groups[IntToString(n - 1)]];
    }
  }

  lemma {:induction false} WaitsConcat(a: seq<Job>, b: seq<Job>)
    ensures Waits(a + b) == Waits(a) + Waits(b)
    decreases |b|
  {
    if b == [] {
      assert a + b == a;
    } else {
      var init := b[..|b| - 1];
      WaitsConcat(a, init);
      assert (a + b)[..|a + b| - 1] == a + init;
    }
  }

  /** The pooled wait list is the tasks' wait lists one after the other. */
  lemma {:induction false} WaitsFlatten(tasks: seq<seq<Job>>)
    ensures Waits(Flatten(tasks)) == Concat(WaitTimes(tasks))
  {
    if tasks != [] {
      var init := tasks[..|tasks| - 1];
      WaitsFlatten(init);
      WaitsConcat(Flatten(init), tasks[|tasks| - 1]);
    }
  }

  lemma {:induction false} FlattenLength(tasks: seq<seq<Job>>)
    requires NoEmptyTask(tasks)
    ensures |Flatten(tasks)| >= |tasks|
  {
    if tasks != [] {
      FlattenLength(tasks[..|tasks| - 1]);
    }
  }

  /** Entry `i` of each per-task list belongs to task `i`. */
  lemma {:induction false} WaitTimesMeaning(tasks: seq<seq<Job>>)
    ensures forall i :: 0 <= i < |tasks| ==> WaitTimes(tasks)[i] == Waits(tasks[i])
  {
    if tasks != [] {
      var init := tasks[..|tasks| - 1];
      WaitTimesMeaning(init);
      assert forall i :: 0 <= i < |init| ==> init[i] == tasks[i];
    }
  }

  lemma {:induction false} VisualsMeaning(tasks: seq<seq<Job>>)
    ensures forall i :: 0 <= i < |tasks| ==> Visuals(tasks)[i] == Intervals(tasks[i])
  {
    if tasks != [] {
      var init := tasks[..|tasks| - 1];
      VisualsMeaning(init);
      assert forall i :: 0 <= i < |init| ==> init[i] == tasks[i];
    }
  }

  lemma {:induction false} TaskMeansMeaning(tasks: seq<seq<Job>>)
    requires NoEmptyTask(tasks)
    ensures forall i :: 0 <= i < |tasks| ==> TaskMeans(tasks)[i] == Mean(Waits(tasks[i]))
  {
    if tasks != [] {
      var init := tasks[..|tasks| - 1];
      TaskMeansMeaning(init);
      assert forall i :: 0 <= i < |init| ==> init[i] == tasks[i];
    }
  }

  lemma {:induction false} TaskMediansMeaning(tasks: seq<seq<Job>>)
    requires NoEmptyTask(tasks)
    ensures forall i :: 0 <= i < |tasks| ==> TaskMedians(tasks)[i] == Median(Waits(tasks[i]))
  {
    if tasks != [] {
      var init := tasks[..|tasks| - 1];
      TaskMediansMeaning(init);
      var prev, last := TaskMedians(init), Median(Waits(tasks[|tasks| - 1]));
      assert TaskMedians(tasks) == prev + [last];
      forall i | 0 <= i < |tasks|
        ensures TaskMedians(tasks)[i] == Median(Waits(tasks[i]))
      {
        if i < |init| {
          assert init[i] == tasks[i];
          assert (prev + [last])[i] == prev[i] == Median(Waits(init[i]));
        } else {
          assert (prev + [last])[i] == last;
        }
      }
    }
  }

  /** `calculations_and_graphs` returns its dict exactly when there is a
      task, every key `str(0)` ... `str(n-1)` of the `n` keys is there with
      jobs, and there is a kernel snapshot. */
  lemma CalculationsSucceedsIff(kernelData: seq<Kernel>, processesData: TaskDict)
    ensures CalculationsSpec(kernelData, processesData).Ok? <==>
              && |processesData.groups| > 0
              && (forall i :: 0 <= i < |processesData.groups| ==> HasJobs(processesData.groups, i))
              && kernelData != []
  {
    var groups := processesData.groups;
    TaskListSucceeds(groups, |groups|);
    var tasks := TaskList(groups, |groups|);
    if tasks.Ok? {
      FlattenLength(tasks.value);
    }
  }

  /** A key `str(i)` that is missing, with every earlier key present,
      raises `KeyError(str(i))`; one present with no jobs raises
      `ZeroDivisionError`. */
  lemma CalculationsFirstBadKey(kernelData: seq<Kernel>, processesData: TaskDict, i: nat)
    requires i < |processesData.groups| && !HasJobs(processesData.groups, i)
    requires forall j :: 0 <= j < i ==> HasJobs(processesData.groups, j)
    ensures CalculationsSpec(kernelData, processesData) ==
              if IntToString(i) in processesData.groups then Err(ZeroDivisionError)
              else Err(KeyError(IntToString(i)))
  {
    var groups := processesData.groups;
    TaskListSucceeds(groups, i);
    TaskListFails(groups, i + 1, |groups|);
  }

  /** The dict entries: every deadline met exactly when no job has
      `deadline_met == 0`; the overall missed string is the sum of the
      critical and non-critical ones; the kernel counters pass through. */
  lemma CalculationsCounts(kernelData: seq<Kernel>, processesData: TaskDict)
    requires CalculationsSpec(kernelData, processesData).Ok?
    ensures var st := CalculationsSpec(kernelData, processesData).value.stats;
            var jobs := Flatten(TaskList(processesData.groups, |processesData.groups|).value);
            && (st.allDeadlinesMet <==> forall k :: 0 <= k < |jobs| ==> jobs[k].deadlineMet != 0)
            && st.missedCritical == Ratio(Missed(Critical(jobs)), |Critical(jobs)|)
            && st.missedNonCritical == Ratio(Missed(NonCritical(jobs)), |NonCritical(jobs)|)
            && st.missedDeadlines == Ratio(Missed(jobs), |jobs|)
            && Missed(jobs) == Missed(Critical(jobs)) + Missed(NonCritical(jobs))
            && |jobs| == |Critical(jobs)| + |NonCritical(jobs)|
            && Missed(jobs) <= |jobs|
            && st.maxTasksInQueue == kernelData[0].readyqMax && st.tasksInQueueAtCompletion == kernelData[0].readyqCur
            && st.totalPreemptions == kernelData[0].preempt && st.totalContextSwitches == kernelData[0].ctx
  {
    var tasks := TaskList(processesData.groups, |processesData.groups|).value;
    CalculationsSpecOf(kernelData, processesData, tasks);
    var jobs := Flatten(tasks);
    MissedMeaning(jobs);
    CriticalSplit(jobs);
  }

  /** The overall average and median pool every job's wait: they are the
      mean and the median of all the per-task wait lists put together. */
  lemma CalculationsPooled(kernelData: seq<Kernel>, processesData: TaskDict)
    requires CalculationsSpec(kernelData, processesData).Ok?
    ensures var f := CalculationsSpec(kernelData, processesData).value;
            && Concat(f.waitTime) != []
            && f.stats.averageWait == Mean(Concat(f.waitTime))
            && f.stats.medianWait == Median(Concat(f.waitTime))
  {
    var tasks := TaskList(processesData.groups, |processesData.groups|).value;
    CalculationsSpecOf(kernelData, processesData, tasks);
    WaitsFlatten(tasks);
  }

  /** The per-task lists have one entry per task, entry `i` for key
      `str(i)`: its waits and its `[start_ms, finish_ms]` pairs. */
  lemma CalculationsPerTask(kernelData: seq<Kernel>, processesData: TaskDict)
    requires CalculationsSpec(kernelData, processesData).Ok?
    ensures var f, n := CalculationsSpec(kernelData, processesData).value, |processesData.groups|;
            && |f.waitTime| == n && |f.overallVisual| == n
            && forall i :: 0 <= i < n ==>
                 && HasJobs(processesData.groups, i)
                 && f.waitTime[i] == Waits(processesData.groups[IntToString(i)])
                 && f.overallVisual[i] == Intervals(processesData.groups[IntToString(i)])
  {
    var f := CalculationsSpec(kernelData, processesData).value;
    var groups := processesData.groups;
    var tasks := TaskList(groups, |groups|).value;
    PerTaskListsOf(kernelData, processesData, tasks);
    TaskListSucceeds(groups, |groups|);
    TaskListValues(groups, |groups|);
    WaitTimesMeaning(tasks);
    VisualsMeaning(tasks);
    forall i | 0 <= i < |groups|
      ensures f.waitTime[i] == Waits(groups[IntToString(i)])
      ensures f.overallVisual[i] == Intervals(groups[IntToString(i)])
    {
      assert tasks[i] == groups[IntToString(i)];
    }
  }

  /** The per-task averages and medians have one entry per task: the mean
      and the median of that task's waits. */
  lemma CalculationsPerTaskStats(kernelData: seq<Kernel>, processesData: TaskDict)
    requires CalculationsSpec(kernelData, processesData).Ok?
    ensures var f := CalculationsSpec(kernelData, processesData).value;
            && |f.stats.averagesPerTask| == |f.waitTime| && |f.stats.mediansPerTask| == |f.waitTime|
            && forall i :: 0 <= i < |f.waitTime| ==>
                 && f.waitTime[i] != []
                 && f.stats.averagesPerTask[i] == Mean(f.waitTime[i])
                 && f.stats.mediansPerTask[i] == Median(f.waitTime[i])
  {
    var f := CalculationsSpec(kernelData, processesData).value;
    var tasks := TaskList(processesData.groups, |processesData.groups|).value;
    PerTaskListsOf(kernelData, processesData, tasks);
    WaitTimesMeaning(tasks);
    TaskMeansMeaning(tasks);
    TaskMediansMeaning(tasks);
    forall i | 0 <= i < |f.waitTime|
      ensures f.waitTime[i] != []
      ensures f.stats.averagesPerTask[i] == Mean(f.waitTime[i])
      ensures f.stats.mediansPerTask[i] == Median(f.waitTime[i])
    {
      assert f.waitTime[i] == Waits(tasks[i]);
      assert |Waits(tasks[i])| == |tasks[i]| > 0;
    }
  }

  /** The per-task lists of a successful result are those of the task list. */
  lemma PerTaskListsOf(kernelData: seq<Kernel>, processesData: TaskDict, tasks: seq<seq<Job>>)
    requires TaskList(processesData.groups, |processesData.groups|) == Ok(tasks)
    requires CalculationsSpec(kernelData, processesData).Ok?
    ensures var f := CalculationsSpec(kernelData, processesData).value;
            && NoEmptyTask(tasks) && |tasks| == |f.waitTime|
            && f.waitTime == WaitTimes(tasks) && f.overallVisual == Visuals(tasks)
            && f.stats.averagesPerTask == TaskMeans(tasks) && f.stats.mediansPerTask == TaskMedians(tasks)
  {
    CalculationsSpecOf(kernelData, processesData, tasks);
  }
}
