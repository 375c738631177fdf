/** SAD_dataVisualization.py: the harness log read into a flat list of
    `process` records of seven fields (`readTextFile` on the text,
    `readCSV` on CSV rows), and `calculations`, the missed-deadline count
    and the wait-time mean and median over all records together. */
module SadDataVisualization {
  import opened PyRuntime
  import opened PyStatistics
  import opened LogScan
  import opened LogFormat
  import HarnessFormat
  import SchedDiag

  /** A `process` object. */
  datatype Process = Process(taskId: int, jobId: int, releaseMs: int, startMs: int, finishMs: int,
                             deadlineMs: int, deadlineMet: int)

  /** `process(data)`: fields 0 to 6 converted in order. */
  function DecodeProcess(data: seq<string>): (r: Result<Process>)
    ensures r.Ok? <==> IntFields(data, 7).Ok?
    ensures r.Ok? ==> (&& ParseInt(data[0]) == Some(r.value.taskId)
                       && ParseInt(data[1]) == Some(r.value.jobId)
                       && ParseInt(data[2]) == Some(r.value.releaseMs)
                       && ParseInt(data[3]) == Some(r.value.startMs)
                       && ParseInt(data[4]) == Some(r.value.finishMs)
                       && ParseInt(data[5]) == Some(r.value.deadlineMs)
                       && ParseInt(data[6]) == Some(r.value.deadlineMet))
    ensures r.Err? ==> r.error == IndexError || r.error == ValueError
  {
    var v :- IntFields(data, 7);
    Ok(Process(v[0], v[1], v[2], v[3], v[4], v[5], v[6]))
  }

  /** The data-line branch of `readTextFile`: split at commas, cut the last
      field to its first character, and build the `process`. */
  function DecodeProcessLine(line: string): (r: Result<Process>)
    ensures r.Ok? ==> |Split(line, ',')| >= 7
  {
    var data :- TruncateLast(Split(line, ','));
    DecodeProcess(data)
  }

  // ---------------------------------------------------------------------------
  // readTextFile

  /** The job lines `readTextFile` converts and the snapshot it keeps, as
      one value; the first exception wins. */
  function ReadTextSpec(lines: seq<string>): Result<(seq<Kernel>, seq<Process>)>
  {
    var processes :- DecodeEach(JobItems(lines, ClassifyLine), DecodeProcessLine);
    var kernels :- KernelData(lines, ClassifyLine, DecodeKstatsLine);
    Ok((kernels, processes))
  }

  /** What one pass of a reader loop leaves: the loop goes on with the
      section flag and the records, or the function ends with a result
      (after the `kstats` item, or on an exception). */
  datatype PassOutcome =
    | Continue(datasection: bool, processes: seq<Process>)
    | Stop(result: Result<(seq<Kernel>, seq<Process>)>)

  /** One pass of the loop of `readTextFile` on `line`, with the section
      flag and the records so far: it moves the scan one step. */
  method ReadLine(line: string, datasection: bool, processesData: seq<Process>) returns (out: PassOutcome)
    ensures var next := ScanNext(ScanState(false, datasection, Ok(processesData)), line, ClassifyLine, DecodeProcessLine);
            && (out.Continue? <==> !next.stopped && next.done.Ok?)
            && (out.Continue? ==> next == ScanState(false, out.datasection, Ok(out.processes)))
    ensures out.Stop? && ClassifyLine(line) == Kstats ==>
              out.result == match DecodeKstatsLine(line)
                            case Ok(k) => Ok(([k], processesData))
                            case Err(e) => Err(e)
    ensures out.Stop? && ClassifyLine(line) != Kstats ==>
              datasection && ClassifyLine(line) == Record && DecodeProcessLine(line).Err? &&
              out.result == Err(DecodeProcessLine(line).error)
  {
    var kernelData: seq<Kernel> := [];
    if PrefixSlice(line, 7) == "task_id" {
      return Continue(true, processesData);
    } else if PrefixSlice(line, 6) == "kstats" {
      var kernel := ReadKstatsLine(line);
      if kernel.Err? {
        return Stop(Err(kernel.error));
      }
      kernelData := kernelData + [kernel.value];
      assert kernelData == [kernel.value];
      return Stop(Ok((kernelData, processesData)));
    } else if line != "\n" && datasection {
      var proc := DecodeProcessLine(line);
      if proc.Err? {
        return Stop(Err(proc.error));
      }
      return Continue(datasection, processesData + [proc.value]);
    }
    return Continue(datasection, processesData);
  }

  /** `readTextFile(infile_path)` on the lines of the file. */
  method ReadTextFile(lines: seq<string>) returns (r: Result<(seq<Kernel>, seq<Process>)>)
    ensures r == ReadTextSpec(lines)
  {
    var processesData: seq<Process> := [];
    var datasection := false;
    var i := 0;
    while i < |lines|
      invariant i <= |lines|
      invariant ScanPrefix(lines, ClassifyLine, DecodeProcessLine, i) == ScanState(false, datasection, Ok(processesData))
    {
      var out := ReadLine(lines[i], datasection, processesData);
      if out.Stop? {
        ReadTextStops(lines, i, datasection, processesData);
        return out.result;
      }
      datasection, processesData := out.datasection, out.processes;
      i := i + 1;
    }
    ReadTextAtEnd(lines, datasection, processesData);
    return Ok(([], processesData));
  }

  /** Where a pass of the loop ends the function, at the `kstats` line or
      at a data line that raises, the result is settled. */
  lemma ReadTextStops(lines: seq<string>, i: nat, inData: bool, done: seq<Process>)
    requires i < |lines| && ScanPrefix(lines, ClassifyLine, DecodeProcessLine, i) == ScanState(false, inData, Ok(done))
    ensures ClassifyLine(lines[i]) == Kstats ==>
              ReadTextSpec(lines) == match DecodeKstatsLine(lines[i])
                                     case Ok(k) => Ok(([k], done))
                                     case Err(e) => Err(e)
    ensures inData && ClassifyLine(lines[i]) == Record && DecodeProcessLine(lines[i]).Err? ==>
              ReadTextSpec(lines) == Err(DecodeProcessLine(lines[i]).error)
  {
    ScanPrefixScanned(lines, ClassifyLine, DecodeProcessLine, i, inData, done);
    if ClassifyLine(lines[i]) == Kstats {
      ScanKstats(lines, ClassifyLine, DecodeProcessLine, i, inData, done);
    } else if inData && ClassifyLine(lines[i]) == Record && DecodeProcessLine(lines[i]).Err? {
      ScanRecordRaises(lines, ClassifyLine, DecodeProcessLine, i, done);
    }
  }

  /** Without a `kstats` line the result is the records and no snapshot. */
  lemma ReadTextAtEnd(lines: seq<string>, inData: bool, done: seq<Process>)
    requires ScanPrefix(lines, ClassifyLine, DecodeProcessLine, |lines|) == ScanState(false, inData, Ok(done))
    ensures ReadTextSpec(lines) == Ok(([], done))
  {
    ScanPrefixScanned(lines, ClassifyLine, DecodeProcessLine, |lines|, inData, done);
    ScanEnd(lines, ClassifyLine, DecodeProcessLine, inData, done);
  }

  /** A successful read returns at most one snapshot, present exactly when
      the log has a `kstats` line and decoded from the first one, and one
      record per job line after the header, each converted from its line. */
  lemma ReadTextShape(lines: seq<string>)
    requires ReadTextSpec(lines).Ok?
    ensures var (kernels, ps) := ReadTextSpec(lines).value;
            && |kernels| <= 1
            && (kernels == [] <==> KstatsItem(lines, ClassifyLine) == None)
            && (kernels != [] ==> DecodeKstatsLine(KstatsItem(lines, ClassifyLine).value) == Ok(kernels[0]))
            && |ps| == |JobItems(lines, ClassifyLine)|
            && forall j :: 0 <= j < |ps| ==> DecodeProcessLine(JobItems(lines, ClassifyLine)[j]) == Ok(ps[j])
  {
    DecodeEachMeaning(JobItems(lines, ClassifyLine), DecodeProcessLine);
  }

  // ---------------------------------------------------------------------------
  // readCSV

  /** The if/elif chain of `readCSV` on one row: a first cell `task_id` is
      the header, `kstats` the snapshot, any other non-empty row a record. */
  function ClassifyRow(row: seq<string>): Kind
  {
    if row != [] && row[0] == "task_id" then Header
    else if row != [] && row[0] == "kstats" then Kstats
    else if row != [] then Record
    else Skip
  }

  /** The `kstats` branch of `readCSV`: the value after `=` of every cell
      after the first (`line[1:]`), converted into one snapshot. */
  function DecodeKstatsRow(row: seq<string>): Result<Kernel>
  {
    DecodeKstatsFields(if row == [] then [] else row[1..])
  }

  /** The rows `readCSV` converts and the snapshot it keeps, as one value. */
  function ReadCsvSpec(rows: seq<seq<string>>): Result<(seq<Kernel>, seq<Process>)>
  {
    var processes :- DecodeEach(JobItems(rows, ClassifyRow), DecodeProcess);
    var kernels :- KernelData(rows, ClassifyRow, DecodeKstatsRow);
    Ok((kernels, processes))
  }

  /** One pass of the loop of `readCSV` on `line`, with the section flag
      and the records so far: it moves the scan one step. */
  method ReadRow(line: seq<string>, datasection: bool, processesData: seq<Process>) returns (out: PassOutcome)
    ensures var next := ScanNext(ScanState(false, datasection, Ok(processesData)), line, ClassifyRow, DecodeProcess);
            && (out.Continue? <==> !next.stopped && next.done.Ok?)
            && (out.Continue? ==> next == ScanState(false, out.datasection, Ok(out.processes)))
    ensures out.Stop? && ClassifyRow(line) == Kstats ==>
              out.result == match DecodeKstatsRow(line)
                            case Ok(k) => Ok(([k], processesData))
                            case Err(e) => Err(e)
    ensures out.Stop? && ClassifyRow(line) != Kstats ==>
              datasection && ClassifyRow(line) == Record && DecodeProcess(line).Err? &&
              out.result == Err(DecodeProcess(line).error)
  {
    var kernelData: seq<Kernel> := [];
    if line != [] && line[0] == "task_id" {
      return Continue(true, processesData);
    } else if line != [] && line[0] == "kstats" {
      var data := ExtractValues(line[1..]);
      if data.Err? {
        return Stop(Err(data.error));
      }
      var kernel := DecodeKernel(data.value);
      if kernel.Err? {
        return Stop(Err(kernel.error));
      }
      kernelData := kernelData + [kernel.value];
      assert kernelData == [kernel.value];
      return Stop(Ok((kernelData, processesData)));
    } else if line != [] && datasection {
      var proc := DecodeProcess(line);
      if proc.Err? {
        return Stop(Err(proc.error));
      }
      return Continue(datasection, processesData + [proc.value]);
    }
    return Continue(datasection, processesData);
  }

  /** `readCSV` on the rows the `csv` reader yields. */
  method ReadCsv(rows: seq<seq<string>>) returns (r: Result<(seq<Kernel>, seq<Process>)>)
    ensures r == ReadCsvSpec(rows)
  {
    var processesData: seq<Process> := [];
    var datasection := false;
    var i := 0;
    while i < |rows|
      invariant i <= |rows|
      invariant ScanPrefix(rows, ClassifyRow, DecodeProcess, i) == ScanState(false, datasection, Ok(processesData))
    {
      var out := ReadRow(rows[i], datasection, processesData);
      if out.Stop? {
        ReadCsvStops(rows, i, datasection, processesData);
        return out.result;
      }
      datasection, processesData := out.datasection, out.processes;
      i := i + 1;
    }
    ReadCsvAtEnd(rows, datasection, processesData);
    return Ok(([], processesData));
  }

  /** Where a pass of the loop ends the function, at the `kstats` row or
      at a record row that raises, the result is settled. */
  lemma ReadCsvStops(rows: seq<seq<string>>, i: nat, inData: bool, done: seq<Process>)
    requires i < |rows| && ScanPrefix(rows, ClassifyRow, DecodeProcess, i) == ScanState(false, inData, Ok(done))
    ensures ClassifyRow(rows[i]) == Kstats ==>
              ReadCsvSpec(rows) == match DecodeKstatsRow(rows[i])
                                   case Ok(k) => Ok(([k], done))
                                   case Err(e) => Err(e)
    ensures inData && ClassifyRow(rows[i]) == Record && DecodeProcess(rows[i]).Err? ==>
              ReadCsvSpec(rows) == Err(DecodeProcess(rows[i]).error)
  {
    ScanPrefixScanned(rows, ClassifyRow, DecodeProcess, i, inData, done);
    if ClassifyRow(rows[i]) == Kstats {
      ScanKstats(rows, ClassifyRow, DecodeProcess, i, inData, done);
    } else if inData && ClassifyRow(rows[i]) == Record && DecodeProcess(rows[i]).Err? {
      ScanRecordRaises(rows, ClassifyRow, DecodeProcess, i, done);
    }
  }

  /** Without a `kstats` row the result is the records and no snapshot. */
  lemma ReadCsvAtEnd(rows: seq<seq<string>>, inData: bool, done: seq<Process>)
    requires ScanPrefix(rows, ClassifyRow, DecodeProcess, |rows|) == ScanState(false, inData, Ok(done))
    ensures ReadCsvSpec(rows) == Ok(([], done))
  {
    ScanPrefixScanned(rows, ClassifyRow, DecodeProcess, |rows|, inData, done);
    ScanEnd(rows, ClassifyRow, DecodeProcess, inData, done);
  }

  // ---------------------------------------------------------------------------
  // calculations

  /** `start_ms - release_ms` */
  function Wait(p: Process): int { p.startMs - p.releaseMs }

  /** The waits of `ps`, in order. */
  function Waits(ps: seq<Process>): (r: seq<int>)
    ensures |r| == |ps|
  {
    if ps == [] then [] else Waits(ps[..|ps| - 1]) + [Wait(ps[|ps| - 1])]
  }

  /** The number of records with `deadline_met == 0`. */
  function Missed(ps: seq<Process>): nat
  {
    if ps == [] then 0 else Missed(ps[..|ps| - 1]) + (if ps[|ps| - 1].deadlineMet == 0 then 1 else 0)
  }

  /** The `stats` dict, one field per key. */
  datatype Stats = Stats(
    allDeadlinesMet: bool,          // "All deadlines were met"
    missedDeadlines: int,           // "(Missed deadlines)"
    averageWait: real,              // "Average Wait Time (ms)"
    medianWait: real,               // "Median Wait Time (ms)"
    maxTasksInQueue: int,           // "Max Number of Tasks in Queue"
    tasksInQueueAtCompletion: int)  // "Tasks in Queue at Completion"

  /** What `calculations` returns: the stats, and the wait of each record
      that the "Wait Time per Process" graph plots against its position. */
  datatype Report = Report(stats: Stats, waitTime: seq<int>)

  /** `calculations(kernel_data, processes_data)` as one value: dividing by
      the number of records raises ZeroDivisionError first, then reading
      the first snapshot raises IndexError. */
  function CalculationsSpec(kernelData: seq<Kernel>, processesData: seq<Process>): Result<Report>
  {
    if processesData == [] then Err(ZeroDivisionError)
    else if kernelData == [] then Err(IndexError)
    else
      var waits, missed, k := Waits(processesData), Missed(processesData), kernelData[0];
      Ok(Report(Stats(missed == 0, missed, Mean(waits), Median(waits), k.readyqMax, k.readyqCur), waits))
  }

  /** `calculations` with its loop over the records. */
  method Calculations(kernelData: seq<Kernel>, processesData: seq<Process>) returns (r: Result<Report>)
    ensures r == CalculationsSpec(kernelData, processesData)
  {
    var deadlinesMissed := 0;
    var averageWaitTime := 0;
    var waitTime: seq<int> := [];
    for i := 0 to |processesData|
      invariant waitTime == Waits(processesData[..i])
      invariant averageWaitTime == Sum(waitTime)
      invariant deadlinesMissed == Missed(processesData[..i])
    {
      var proc := processesData[i];
      var wait := proc.startMs - proc.releaseMs;
      assert processesData[..i + 1][..i] == processesData[..i];
      waitTime := waitTime + [wait];
      averageWaitTime := averageWaitTime + wait;
      if proc.deadlineMet == 0 {
        deadlinesMissed := deadlinesMissed + 1;
      }
    }
    assert processesData[..|processesData|] == processesData;
    if |processesData| == 0 {
      return Err(ZeroDivisionError);
    }
    var average := averageWaitTime as real / |processesData| as real;
    var medianWaitTime := Median(waitTime);
    if |kernelData| == 0 {
      return Err(IndexError);
    }
    var stats := Stats(deadlinesMissed == 0, deadlinesMissed, average, medianWaitTime,
                       kernelData[0].readyqMax, kernelData[0].readyqCur);
    return Ok(Report(stats, waitTime));
  }

  // ---------------------------------------------------------------------------
  // Facts about calculations

  /** The count is at most the number of records, and it is zero exactly
      when every record met its deadline. */
  lemma {:induction false} MissedMeaning(ps: seq<Process>)
    ensures Missed(ps) <= |ps|
    ensures Missed(ps) == 0 <==> forall i :: 0 <= i < |ps| ==> ps[i].deadlineMet != 0
  {
    if ps != [] {
      var init := ps[..|ps| - 1];
      MissedMeaning(init);
      assert forall i :: 0 <= i < |init| ==> init[i] == ps[i];
    }
  }

  /** Entry `i` of the waits is the wait of record `i`. */
  lemma {:induction false} WaitsMeaning(ps: seq<Process>)
    ensures forall i :: 0 <= i < |ps| ==> Waits(ps)[i] == ps[i].startMs - ps[i].releaseMs
  {
    if ps != [] {
      var init := ps[..|ps| - 1];
      WaitsMeaning(init);
      assert forall i :: 0 <= i < |init| ==> init[i] == ps[i];
    }
  }

  /** `calculations` returns exactly when there is a record and a snapshot;
      with no record it raises ZeroDivisionError whatever the snapshots. */
  lemma CalculationsSucceedsIff(kernelData: seq<Kernel>, processesData: seq<Process>)
    ensures CalculationsSpec(kernelData, processesData).Ok? <==> processesData != [] && kernelData != []
    ensures processesData == [] ==> CalculationsSpec(kernelData, processesData) == Err(ZeroDivisionError)
    ensures processesData != [] && kernelData == [] ==> CalculationsSpec(kernelData, processesData) == Err(IndexError)
  {
  }

  /** What the stats mean: the flag says that every record met its deadline,
      the count is that of the records that missed, one wait per record,
      the mean and median are those of the waits, the median lies between
      two of them, and the queue figures come from the first snapshot. */
  lemma CalculationsMeaning(kernelData: seq<Kernel>, processesData: seq<Process>)
    requires CalculationsSpec(kernelData, processesData).Ok?
    ensures var rep := CalculationsSpec(kernelData, processesData).value;
            && (rep.stats.allDeadlinesMet <==> forall i :: 0 <= i < |processesData| ==> processesData[i].deadlineMet != 0)
            && rep.stats.missedDeadlines == Missed(processesData) <= |processesData|
            && |rep.waitTime| == |processesData|
            && (forall i :: 0 <= i < |processesData| ==>
                  rep.waitTime[i] == processesData[i].startMs - processesData[i].releaseMs)
            && rep.stats.averageWait == Sum(rep.waitTime) as real / |processesData| as real
            && rep.stats.medianWait == Median(rep.waitTime)
            && (exists i :: 0 <= i < |rep.waitTime| && rep.waitTime[i] as real <= rep.stats.medianWait)
            && (exists j :: 0 <= j < |rep.waitTime| && rep.stats.medianWait <= rep.waitTime[j] as real)
            && rep.stats.maxTasksInQueue == kernelData[0].readyqMax
            && rep.stats.tasksInQueueAtCompletion == kernelData[0].readyqCur
  {
    MissedMeaning(processesData);
    WaitsMeaning(processesData);
    MedianBetween(Waits(processesData));
  }

  lemma {:induction false} WaitsConcat(a: seq<Process>, b: seq<Process>)
    ensures Waits(a + b) == Waits(a) + Waits(b)
    ensures Missed(a + b) == Missed(a) + Missed(b)
    decreases |b|
  {
    if b == [] {
      assert a + b == a;
    } else {
      WaitsConcat(a, b[..|b| - 1]);
      assert (a + b)[..|a + b| - 1] == a + b[..|b| - 1];
    }
  }

  /** Taking record `k` out of `q` takes its wait and its missed deadline
      out of the totals. */
  lemma RemoveRecord(q: seq<Process>, k: nat)
    requires k < |q|
    ensures multiset(Waits(q)) == multiset(Waits(q[..k] + q[k + 1..])) + multiset{Wait(q[k])}
    ensures Missed(q) == Missed(q[..k] + q[k + 1..]) + (if q[k].deadlineMet == 0 then 1 else 0)
  {
    SplitAt(q, k);
    RemoveMiddle(q[..k], q[k], q[k + 1..]);
  }

  /** A sequence is its prefix, the element at `k` and its suffix. */
  lemma SplitAt(q: seq<Process>, k: nat)
    requires k < |q|
    ensures q == q[..k] + [q[k]] + q[k + 1..]
  {
    assert q == q[..k] + q[k..];
    assert q[k..] == [q[k]] + q[k + 1..];
  }

  /** The record `x` between `a` and `b` adds its wait and its missed
      deadline to those of `a` and `b`. */
  lemma RemoveMiddle(a: seq<Process>, x: Process, b: seq<Process>)
    ensures multiset(Waits(a + [x] + b)) == multiset(Waits(a + b)) + multiset{Wait(x)}
    ensures Missed(a + [x] + b) == Missed(a + b) + (if x.deadlineMet == 0 then 1 else 0)
  {
    WaitsConcat(a + [x], b);
    WaitsConcat(a, [x]);
    WaitsConcat(a, b);
    assert [x][..0] == [];
    MultisetMiddle(Waits(a), Wait(x), Waits(b));
  }

  /** Moving one element to the end does not change a multiset. */
  lemma MultisetMiddle(u: seq<int>, y: int, v: seq<int>)
    ensures multiset(u + [y] + v) == multiset(u + v) + multiset{y}
  {
    assert u + [y] + v == u + ([y] + v);
  }

  /** Taking element `k` out of a sequence takes it out of its multiset. */
  lemma WithoutAt(q: seq<Process>, k: nat)
    requires k < |q|
    ensures multiset(q[..k] + q[k + 1..]) == multiset(q) - multiset{q[k]}
  {
    assert q == q[..k] + [q[k]] + q[k + 1..];
  }

  /** Rearranged records have the same waits, in some order, and the same
      number of missed deadlines. */
  lemma {:induction false} PermutedRecords(p: seq<Process>, q: seq<Process>)
    requires multiset(p) == multiset(q)
    ensures multiset(Waits(p)) == multiset(Waits(q))
    ensures Missed(p) == Missed(q)
    decreases |p|
  {
    assert |p| == |multiset(p)| == |multiset(q)| == |q|;
    if p != [] {
      var n := |p| - 1;
      var x := p[n];
      assert x in multiset(q);
      var k :| 0 <= k < |q| && q[k] == x;
      var rest := q[..k] + q[k + 1..];
      WithoutAt(p, n);
      WithoutAt(q, k);
      assert p[..n] + p[n + 1..] == p[..n];
      PermutedRecords(p[..n], rest);
      RemoveRecord(p, n);
      RemoveRecord(q, k);
    }
  }

  /** The order of the records in the log does not change any statistic. */
  lemma CalculationsOrderFree(kernelData: seq<Kernel>, p: seq<Process>, q: seq<Process>)
    requires multiset(p) == multiset(q)
    ensures CalculationsSpec(kernelData, p).Ok? <==> CalculationsSpec(kernelData, q).Ok?
    ensures CalculationsSpec(kernelData, p).Ok? ==>
              CalculationsSpec(kernelData, p).value.stats == CalculationsSpec(kernelData, q).value.stats
  {
    assert |p| == |multiset(p)| == |multiset(q)| == |q|;
    if p != [] {
      PermutedRecords(p, q);
      MeanOfPermutation(Waits(p), Waits(q));
      MedianOfPermutation(Waits(p), Waits(q));
    }
  }

  // ---------------------------------------------------------------------------
  // Reading the harness log

  /** The record a reader should recover from a printed `job_log_t`. */
  function ProcessOf(r: HarnessFormat.JobLog): Process
  {
    Process(r.taskId, r.jobId, r.releaseMs, r.startMs, r.finishMs, r.deadlineAbsMs,
            HarnessFormat.MetFlag(r.metDeadline))
  }

  function ProcessesOf(rs: seq<HarnessFormat.JobLog>): (ps: seq<Process>)
    ensures |ps| == |rs| && forall i :: 0 <= i < |rs| ==> ps[i] == ProcessOf(rs[i])
  {
    seq(|rs|, i requires 0 <= i < |rs| => ProcessOf(rs[i]))
  }

  /** A printed job line reads back as its record: the seven fields
      convert, and the met flag is one character, so cutting the last
      field to its first character only drops the newline. */
  lemma JobLineDecodes(r: HarnessFormat.JobLog)
    ensures DecodeProcessLine(HarnessFormat.JobLine(r)) == Ok(ProcessOf(r))
  {
    HarnessFormat.JobLineSplits(r);
    HarnessFormat.JobFieldsTruncated(r);
    var vs := HarnessFormat.JobValues(r);
    IntFieldsOfPrinted(vs, 7);
    assert vs[..7] == vs;
  }

  /** `readTextFile` on a harness log gives back the snapshot and every
      printed record, in order. */
  lemma HarnessLogRoundTrip(boot: seq<string>, threads: nat, rs: seq<HarnessFormat.JobLog>, ks: SchedDiag.Stats)
    requires HarnessFormat.Inert(boot)
    ensures ReadTextSpec(HarnessFormat.HarnessLog(boot, threads, rs, ks)) ==
              Ok(([HarnessFormat.KernelOf(ks)], ProcessesOf(rs)))
  {
    var items := HarnessFormat.JobLines(rs);
    HarnessFormat.HarnessLogScan(boot, threads, rs, ks);
    HarnessFormat.KstatsLineDecodes(ks);
    forall j | 0 <= j < |items| ensures DecodeProcessLine(items[j]) == Ok(ProcessOf(rs[j])) {
      JobLineDecodes(rs[j]);
    }
    DecodeEachMeaning(items, DecodeProcessLine);
    assert DecodeEach(items, DecodeProcessLine).value == ProcessesOf(rs);
  }

  /** From the records of a harness log with at least one record the
      statistics come out: all deadlines met exactly when every printed
      record met its deadline, one wait per record, and the queue figures
      are the counters printed in the `kstats` line. */
  lemma HarnessLogStats(rs: seq<HarnessFormat.JobLog>, ks: SchedDiag.Stats)
    requires rs != []
    ensures var r := CalculationsSpec([HarnessFormat.KernelOf(ks)], ProcessesOf(rs));
            && r.Ok?
            && (r.value.stats.allDeadlinesMet <==> forall i :: 0 <= i < |rs| ==> rs[i].metDeadline)
            && |r.value.waitTime| == |rs|
            && (forall i :: 0 <= i < |rs| ==> r.value.waitTime[i] == rs[i].startMs - rs[i].releaseMs)
            && r.value.stats.maxTasksInQueue == ks.readyqLenMax
            && r.value.stats.tasksInQueueAtCompletion == ks.readyqLenCur
  {
    var ps := ProcessesOf(rs);
    MissedMeaning(ps);
    WaitsMeaning(ps);
    assert forall i :: 0 <= i < |rs| ==> (ps[i].deadlineMet != 0 <==> rs[i].metDeadline);
  }

  /** The seven cells of a CSV record row. */
  function ProcessRow(p: Process): seq<string>
  {
    [IntToString(p.taskId), IntToString(p.jobId), IntToString(p.releaseMs), IntToString(p.startMs),
     IntToString(p.finishMs), IntToString(p.deadlineMs), IntToString(p.deadlineMet)]
  }

  /** A record row reads back as its record; unlike the text reader, no
      cell is cut, so any `deadline_met` value survives. */
  lemma ProcessRowDecodes(p: Process)
    ensures DecodeProcess(ProcessRow(p)) == Ok(p)
  {
    var vs := [p.taskId, p.jobId, p.releaseMs, p.startMs, p.finishMs, p.deadlineMs, p.deadlineMet];
    assert ProcessRow(p) == Printed(vs);
    IntFieldsOfPrinted(vs, 7);
    assert vs[..7] == vs;
  }

  /** A successful CSV read returns at most one snapshot, present exactly
      when there is a `kstats` row, and one record per record row after the
      header, each converted from its row. */
  lemma ReadCsvShape(rows: seq<seq<string>>)
    requires ReadCsvSpec(rows).Ok?
    ensures var (kernels, ps) := ReadCsvSpec(rows).value;
            && |kernels| <= 1
            && (kernels == [] <==> KstatsItem(rows, ClassifyRow) == None)
            && (kernels != [] ==> DecodeKstatsRow(KstatsItem(rows, ClassifyRow).value) == Ok(kernels[0]))
            && |ps| == |JobItems(rows, ClassifyRow)|
            && forall j :: 0 <= j < |ps| ==> DecodeProcess(JobItems(rows, ClassifyRow)[j]) == Ok(ps[j])
  {
    DecodeEachMeaning(JobItems(rows, ClassifyRow), DecodeProcess);
  }
}
