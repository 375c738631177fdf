/** The text the test harness (src/main.c) prints once its jobs have run:
    banner lines, the CSV header, one line per job record, the `kstats`
    line with the counters that `sched_diag_get` reported, and a closing
    banner. This is the input both log readers are written against. */
module HarnessFormat {
  import opened PyRuntime
  import opened LogScan
  import opened LogFormat
  import SchedDiag

  /** One `job_log_t` record. `met_deadline` is 1 when the job finished by
      its absolute deadline and 0 otherwise, so it is a flag here. */
  datatype JobLog = JobLog(taskId: int, jobId: int, releaseMs: nat, startMs: nat,
                           finishMs: nat, deadlineAbsMs: nat, metDeadline: bool)

  function MetFlag(met: bool): int
  {
    if met then 1 else 0
  }

  const HeaderLine: string := "task_id" + ",job_id,release_ms,start_ms,finish_ms,deadline_ms,met\n"

  /** The seven values of a record, in the order main prints them. */
  function JobValues(r: JobLog): seq<int>
  {
    [r.taskId, r.jobId, r.releaseMs, r.startMs, r.finishMs, r.deadlineAbsMs, MetFlag(r.metDeadline)]
  }

  /** The seven values of a record as `%d,%d,%u,%u,%u,%u,%d` prints them. */
  function JobFields(r: JobLog): seq<string>
  {
    Printed(JobValues(r))
  }

  /** The pieces of a job line between its commas; the newline ends the last. */
  function JobPieces(r: JobLog): seq<string>
  {
    JobFields(r)[..6] + [JobFields(r)[6] + "\n"]
  }

  function JobLine(r: JobLog): string
  {
    Join(JobPieces(r), ',')
  }

  function JobLines(rs: seq<JobLog>): (ls: seq<string>)
    ensures |ls| == |rs| && forall i :: 0 <= i < |rs| ==> ls[i] == JobLine(rs[i])
  {
    seq(|rs|, i requires 0 <= i < |rs| => JobLine(rs[i]))
  }

  /** The pieces of the `kstats` line between its commas. */
  function KstatsPieces(ks: SchedDiag.Stats): seq<string>
  {
    ["kstats",
     KeyValue("ctx", ks.contextSwitches),
     KeyValue("preempt", ks.preemptions),
     KeyValue("readyq_max", ks.readyqLenMax),
     KeyValue("readyq_cur", ks.readyqLenCur) + "\n"]
  }

  /** One `key=%llu` or `key=%u` field. */
  function KeyValue(key: string, v: int): string
  {
    key + "=" + IntToString(v)
  }

  function KstatsLine(ks: SchedDiag.Stats): string
  {
    Join(KstatsPieces(ks), ',')
  }

  /** The snapshot a reader should recover from the counters `ks`. */
  function KernelOf(ks: SchedDiag.Stats): Kernel
  {
    Kernel(ks.contextSwitches, ks.preemptions, ks.readyqLenMax, ks.readyqLenCur)
  }

  /** What main prints before the header: its start banner, one line per
      thread it creates, and the line after the last one. */
  function Banner(threads: nat): (ls: seq<string>)
    ensures |ls| == threads + 2
  {
    ["*** hybrid_sched_test start ***\n"] + seq(threads, _ => "*** Creating Thread ***\n") + ["here\n"]
  }

  function Trailer(count: int): string
  {
    "*** hybrid_sched_test done (" + IntToString(count) + " records) ***\n"
  }

  /** The console output of one run: whatever the system printed first
      (`boot`), then main's lines. */
  function HarnessLog(boot: seq<string>, threads: nat, rs: seq<JobLog>, ks: SchedDiag.Stats): seq<string>
  {
    boot + Banner(threads) + [HeaderLine] + JobLines(rs) + [KstatsLine(ks), Trailer(|rs|)]
  }

  /** Lines that cannot switch a reader's state: no header, no `kstats`. */
  predicate Inert(lines: seq<string>)
  {
    forall j :: 0 <= j < |lines| ==> ClassifyLine(lines[j]) != Header && ClassifyLine(lines[j]) != Kstats
  }

  // ---------------------------------------------------------------------------
  // Facts about the printed lines

  /** A printed integer holds only digits and a leading minus sign. */
  lemma IntToStringNoSep(i: int, c: char)
    requires !IsDigit(c) && c != '-'
    ensures c !in IntToString(i)
  {
    IntToStringForm(i);
  }

  lemma JobPiecesNoComma(r: JobLog)
    ensures |JobPieces(r)| == 7
    ensures forall k :: 0 <= k < 7 ==> ',' !in JobPieces(r)[k]
  {
    var f := JobFields(r);
    forall k | 0 <= k < 6 ensures ',' !in JobPieces(r)[k] {
      assert JobPieces(r)[k] == f[k];
      IntToStringNoSep(JobValues(r)[k], ',');
    }
    IntToStringNoSep(MetFlag(r.metDeadline), ',');
    assert JobPieces(r)[6] == f[6] + "\n";
  }

  /** The met flag prints as one digit, so cutting the last piece of a job
      line to its first character leaves the printed fields. */
  lemma JobFieldsTruncated(r: JobLog)
    ensures TruncateLast(JobPieces(r)) == Ok(JobFields(r))
  {
    var f := JobFields(r);
    assert f[6] == [DigitChar(MetFlag(r.metDeadline))];
    TruncateLineEnd(f[..6], f[6]);
    assert f[..6] + [f[6]] == f;
  }

  /** A job line splits at its commas into exactly the pieces it was printed from. */
  lemma JobLineSplits(r: JobLog)
    ensures Split(JobLine(r), ',') == JobPieces(r)
  {
    JobPiecesNoComma(r);
    SplitJoin(JobPieces(r), ',');
  }

  /** A line that starts with neither `t` nor `k` and is not a bare newline
      is a record to the readers. */
  lemma PlainLineIsRecord(line: string)
    requires |line| >= 2 && line[0] != 't' && line[0] != 'k'
    ensures ClassifyLine(line) == Record
  {
    assert PrefixSlice(line, 7)[0] == line[0];
    assert PrefixSlice(line, 6)[0] == line[0];
    assert "task_id"[0] == 't' && "kstats"[0] == 'k';
    assert |line| != |"\n"|;
  }

  /** Main's own lines before the header are inert for the readers. */
  lemma BannerInert(threads: nat)
    ensures Inert(Banner(threads))
  {
    var b := Banner(threads);
    forall j | 0 <= j < |b| ensures ClassifyLine(b[j]) == Record {
      if j == 0 {
        assert b[j] == "*** hybrid_sched_test start ***\n";
      } else if j < |b| - 1 {
        assert b[j] == "*** Creating Thread ***\n";
      } else {
        assert b[j] == "here\n";
      }
      PlainLineIsRecord(b[j]);
    }
  }

  /** Every printed job line is a record to the readers: it starts with a
      digit or a minus sign, so it is neither header nor `kstats` nor blank. */
  lemma JobLineIsRecord(r: JobLog)
    ensures ClassifyLine(JobLine(r)) == Record
  {
    var p := JobPieces(r);
    JoinStart(p, ',');
    IntToStringForm(r.taskId);
    assert p[0] == IntToString(r.taskId);
    assert JobLine(r)[0] == p[0][0];
    PlainLineIsRecord(JobLine(r));
  }

  /** The header line is the header to the readers, and the `kstats` line is
      the snapshot line. */
  lemma HeaderAndKstatsClassified(ks: SchedDiag.Stats)
    ensures ClassifyLine(HeaderLine) == Header
    ensures ClassifyLine(KstatsLine(ks)) == Kstats
  {
    assert PrefixSlice(HeaderLine, 7) == "task_id";
    var line := KstatsLine(ks);
    JoinStart(KstatsPieces(ks), ',');
    assert PrefixSlice(line, 6) == "kstats";
    assert PrefixSlice(line, 7)[0] == 'k';
    assert "task_id"[0] == 't';
  }

  /** `key=value` splits at `=` into the key and the printed value, with
      or without the line's newline. */
  lemma KeyValueSplits(key: string, v: int)
    requires '=' !in key
    ensures Split(KeyValue(key, v), '=') == [key, IntToString(v)]
    ensures Split(KeyValue(key, v) + "\n", '=') == [key, IntToString(v) + "\n"]
  {
    var s := IntToString(v);
    IntToStringNoSep(v, '=');
    assert '=' !in s + "\n";
    assert KeyValue(key, v) == Join([key, s], '=');
    assert KeyValue(key, v) + "\n" == Join([key, s + "\n"], '=');
    SplitJoin([key, s], '=');
    SplitJoin([key, s + "\n"], '=');
  }

  lemma KstatsPiecesNoComma(ks: SchedDiag.Stats)
    ensures forall k :: 0 <= k < |KstatsPieces(ks)| ==> ',' !in KstatsPieces(ks)[k]
  {
    IntToStringNoSep(ks.contextSwitches, ',');
    IntToStringNoSep(ks.preemptions, ',');
    IntToStringNoSep(ks.readyqLenMax, ',');
    IntToStringNoSep(ks.readyqLenCur, ',');
  }

  /** The fields after the tag of the printed `kstats` line. */
  lemma KstatsLineFields(ks: SchedDiag.Stats)
    ensures Split(KstatsLine(ks), ',')[1..] == KstatsPieces(ks)[1..]
  {
    KstatsPiecesNoComma(ks);
    SplitJoin(KstatsPieces(ks), ',');
  }

  lemma KstatsValuesOf(fields: seq<string>, values: seq<string>)
    requires |fields| == |values|
    requires forall i :: 0 <= i < |fields| ==> |Split(fields[i], '=')| >= 2 && Split(fields[i], '=')[1] == values[i]
    ensures KstatsValues(fields) == Ok(values)
  {
    var r := KstatsValues(fields);
    assert r.Ok?;
    assert r.value == values;
  }

  /** The values after `=` in the printed `kstats` fields. */
  lemma KstatsValuesOfPrinted(ks: SchedDiag.Stats)
    ensures KstatsValues(KstatsPieces(ks)[1..]) ==
              Ok([IntToString(ks.contextSwitches), IntToString(ks.preemptions),
                  IntToString(ks.readyqLenMax), IntToString(ks.readyqLenCur) + "\n"])
  {
    var fields := [KeyValue("ctx", ks.contextSwitches), KeyValue("preempt", ks.preemptions),
                   KeyValue("readyq_max", ks.readyqLenMax), KeyValue("readyq_cur", ks.readyqLenCur) + "\n"];
    assert KstatsPieces(ks)[1..] == fields;
    KeyValueSplits("ctx", ks.contextSwitches);
    KeyValueSplits("preempt", ks.preemptions);
    KeyValueSplits("readyq_max", ks.readyqLenMax);
    KeyValueSplits("readyq_cur", ks.readyqLenCur);
    KstatsValuesOf(fields, [IntToString(ks.contextSwitches), IntToString(ks.preemptions),
                            IntToString(ks.readyqLenMax), IntToString(ks.readyqLenCur) + "\n"]);
  }

  /** `kernel(data)` on four printed counters gives them back. */
  lemma DecodePrintedKernel(ks: SchedDiag.Stats)
    ensures DecodeKernel([IntToString(ks.contextSwitches), IntToString(ks.preemptions),
                          IntToString(ks.readyqLenMax), IntToString(ks.readyqLenCur) + "\n"]) ==
              Ok(KernelOf(ks))
  {
    ParseIntOfString(ks.contextSwitches);
    ParseIntOfString(ks.preemptions);
    ParseIntOfString(ks.readyqLenMax);
    ParseIntOfLineEnd(ks.readyqLenCur);
    DecodeKernelOf(IntToString(ks.contextSwitches), IntToString(ks.preemptions),
                   IntToString(ks.readyqLenMax), IntToString(ks.readyqLenCur) + "\n",
                   ks.contextSwitches, ks.preemptions, ks.readyqLenMax, ks.readyqLenCur);
  }

  /** Reading back the `kstats` line gives the four counters, unchanged and
      in the order ctx, preempt, readyq_max, readyq_cur. */
  lemma KstatsLineDecodes(ks: SchedDiag.Stats)
    ensures DecodeKstatsLine(KstatsLine(ks)) == Ok(KernelOf(ks))
  {
    KstatsLineFields(ks);
    KstatsValuesOfPrinted(ks);
    DecodePrintedKernel(ks);
  }

  /** In a harness log the readers find exactly the printed job lines as
      jobs and the printed `kstats` line as the snapshot. */
  lemma HarnessLogScan(boot: seq<string>, threads: nat, rs: seq<JobLog>, ks: SchedDiag.Stats)
    requires Inert(boot)
    ensures JobItems(HarnessLog(boot, threads, rs, ks), ClassifyLine) == JobLines(rs)
    ensures KstatsItem(HarnessLog(boot, threads, rs, ks), ClassifyLine) == Some(KstatsLine(ks))
  {
    var pre := boot + Banner(threads);
    BannerInert(threads);
    assert Inert(pre) by {
      forall j | 0 <= j < |pre| ensures ClassifyLine(pre[j]) != Header && ClassifyLine(pre[j]) != Kstats {
        if j >= |boot| { assert pre[j] == Banner(threads)[j - |boot|]; }
      }
    }
    HeaderAndKstatsClassified(ks);
    forall j | 0 <= j < |rs| ensures ClassifyLine(JobLines(rs)[j]) == Record {
      JobLineIsRecord(rs[j]);
    }
    assert HarnessLog(boot, threads, rs, ks) == pre + [HeaderLine] + JobLines(rs) + [KstatsLine(ks)] + [Trailer(|rs|)];
    ScanOfLayout(pre, HeaderLine, JobLines(rs), KstatsLine(ks), [Trailer(|rs|)], ClassifyLine);
  }
}
