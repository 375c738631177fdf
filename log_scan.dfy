/** The section state machine that every reader of the harness log runs
    (`readTextFile` in both scripts, and `readCSV`). Items are lines or CSV
    rows; a reader's if/elif chain sorts each item into one `Kind`:

    - a header item switches the job section on and carries no data;
    - the first kstats item is decoded and ends the scan (`break`);
    - a record item is a job when the job section is on, and ignored before;
    - everything else is skipped.

    Once on, nothing but the terminating kstats item switches the section
    off, so the jobs are exactly the record items between the first header
    and the first kstats item. */
module LogScan {
  import opened PyRuntime

  datatype Kind = Header | Kstats | Record | Skip

  /** Index of the first item of kind `k`, or `|items|` when there is none. */
  function FirstOf<T>(items: seq<T>, kind: T -> Kind, k: Kind): (i: nat)
    ensures i <= |items|
    ensures forall j :: 0 <= j < i ==> kind(items[j]) != k
    ensures i < |items| ==> kind(items[i]) == k
  {
    if items == [] then 0
    else if kind(items[0]) == k then 0
    else 1 + FirstOf(items[1..], kind, k)
  }

  /** The record items of `items`, in order. */
  function Records<T>(items: seq<T>, kind: T -> Kind): (r: seq<T>)
    ensures |r| <= |items|
    ensures forall j :: 0 <= j < |r| ==> kind(r[j]) == Record
  {
    if items == [] then []
    else
      var last := items[|items| - 1];
      Records(items[..|items| - 1], kind) + (if kind(last) == Record then [last] else [])
  }

  /** The job items among the first `i` items: the records after the first
      header (none when no header comes before `i`). */
  function JobsBefore<T>(items: seq<T>, kind: T -> Kind, i: nat): seq<T>
    requires i <= |items|
  {
    var h := FirstOf(items, kind, Header);
    if h < i then Records(items[h..i], kind) else []
  }

  /** The items a reader turns into job records. */
  function JobItems<T>(items: seq<T>, kind: T -> Kind): (d: seq<T>)
    ensures forall j :: 0 <= j < |d| ==> kind(d[j]) == Record
  {
    JobsBefore(items, kind, FirstOf(items, kind, Kstats))
  }

  /** The kstats item the reader stops at, if there is one. */
  function KstatsItem<T>(items: seq<T>, kind: T -> Kind): (o: Option<T>)
    ensures o.Some? <==> exists j :: 0 <= j < |items| && kind(items[j]) == Kstats
    ensures o.Some? ==> kind(o.value) == Kstats
  {
    var k := FirstOf(items, kind, Kstats);
    if k < |items| then Some(items[k]) else None
  }

  /** `kernel_data`: empty when the scan met no kstats item, else the one
      snapshot decoded from the first kstats item. */
  function KernelData<T, U>(items: seq<T>, kind: T -> Kind, decode: T -> Result<U>): (r: Result<seq<U>>)
    ensures r.Ok? ==> |r.value| <= 1
    ensures r.Ok? && r.value == [] <==> KstatsItem(items, kind) == None
  {
    match KstatsItem(items, kind)
    case None => Ok([])
    case Some(item) =>
      var v :- decode(item);
      Ok([v])
  }

  /** Decodes every item in order and stops at the first exception. */
  function DecodeEach<T, U>(items: seq<T>, decode: T -> Result<U>): (r: Result<seq<U>>)
    ensures r.Ok? ==> |r.value| == |items|
  {
    if items == [] then Ok([])
    else
      var init := items[..|items| - 1];
      var prev :- DecodeEach(init, decode);
      var v :- decode(items[|items| - 1]);
      Ok(prev + [v])
  }

  /** The decode pass succeeds exactly when every item decodes, and then
      holds the items' values in order; otherwise it raises the exception
      of the first item that does not decode. */
  lemma {:induction false} DecodeEachMeaning<T, U>(items: seq<T>, decode: T -> Result<U>)
    ensures DecodeEach(items, decode).Ok? <==> forall j :: 0 <= j < |items| ==> decode(items[j]).Ok?
    ensures DecodeEach(items, decode).Ok? ==>
              forall j :: 0 <= j < |items| ==> decode(items[j]) == Ok(DecodeEach(items, decode).value[j])
    ensures DecodeEach(items, decode).Err? ==>
              exists j :: 0 <= j < |items| && decode(items[j]) == Err(DecodeEach(items, decode).error)
                          && forall i :: 0 <= i < j ==> decode(items[i]).Ok?
  {
    if items != [] {
      var init := items[..|items| - 1];
      DecodeEachMeaning(init, decode);
      assert forall j :: 0 <= j < |init| ==> items[j] == init[j];
      if DecodeEach(init, decode).Err? {
        var j :| 0 <= j < |init| && decode(init[j]) == Err(DecodeEach(init, decode).error)
                 && forall i :: 0 <= i < j ==> decode(init[i]).Ok?;
        assert decode(items[j]) == Err(DecodeEach(items, decode).error);
      }
    }
  }

  // ---------------------------------------------------------------------------
  // Facts about the scan

  lemma {:induction false} RecordsConcat<T>(a: seq<T>, b: seq<T>, kind: T -> Kind)
    ensures Records(a + b, kind) == Records(a, kind) + Records(b, kind)
    decreases |b|
  {
    if b == [] {
      assert a + b == a;
    } else {
      RecordsConcat(a, b[..|b| - 1], kind);
      assert (a + b)[..|a + b| - 1] == a + b[..|b| - 1];
    }
  }

  lemma RecordsSnoc<T>(s: seq<T>, x: T, kind: T -> Kind)
    ensures Records(s + [x], kind) == Records(s, kind) + (if kind(x) == Record then [x] else [])
  {
    assert (s + [x])[..|s|] == s;
  }

  /** Once the job section is on, scanning one more item adds it to the
      jobs exactly when it is a record. */
  lemma JobsBeforeStep<T>(items: seq<T>, kind: T -> Kind, i: nat)
    requires FirstOf(items, kind, Header) < i < |items|
    ensures JobsBefore(items, kind, i + 1) ==
              JobsBefore(items, kind, i) + (if kind(items[i]) == Record then [items[i]] else [])
  {
    RecordsSliceStep(items, kind, FirstOf(items, kind, Header), i);
  }

  lemma RecordsSliceStep<T>(items: seq<T>, kind: T -> Kind, h: nat, i: nat)
    requires h <= i < |items|
    ensures Records(items[h..i + 1], kind) ==
              Records(items[h..i], kind) + (if kind(items[i]) == Record then [items[i]] else [])
  {
    assert items[h..i + 1] == items[h..i] + [items[i]];
    RecordsSnoc(items[h..i], items[i], kind);
  }

  /** Before the job section is on, scanning one more item adds no job. */
  lemma JobsBeforeIdle<T>(items: seq<T>, kind: T -> Kind, i: nat)
    requires i < |items| && i <= FirstOf(items, kind, Header)
    ensures JobsBefore(items, kind, i + 1) == []
  {
    var h := FirstOf(items, kind, Header);
    if h == i {
      SliceOne(items, i);
      RecordsSingle(items[i], kind);
    }
  }

  lemma SliceOne<T>(items: seq<T>, i: nat)
    requires i < |items|
    ensures items[i..i + 1] == [items[i]]
  {
  }

  lemma RecordsSingle<T>(x: T, kind: T -> Kind)
    ensures Records([x], kind) == if kind(x) == Record then [x] else []
  {
    assert [x][..0] == [];
  }

  /** The jobs seen so far are a prefix of the jobs seen later. */
  lemma JobsBeforePrefix<T>(items: seq<T>, kind: T -> Kind, i: nat, k: nat)
    requires i <= k <= |items|
    ensures JobsBefore(items, kind, i) <= JobsBefore(items, kind, k)
  {
    var h := FirstOf(items, kind, Header);
    if h < i {
      assert items[h..k] == items[h..i] + items[i..k];
      RecordsConcat(items[h..i], items[i..k], kind);
    }
  }

  lemma {:induction false} FirstOfShift<T>(pre: seq<T>, rest: seq<T>, kind: T -> Kind, k: Kind)
    requires forall j :: 0 <= j < |pre| ==> kind(pre[j]) != k
    ensures FirstOf(pre + rest, kind, k) == |pre| + FirstOf(rest, kind, k)
    decreases |pre|
  {
    if pre != [] {
      assert (pre + rest)[1..] == pre[1..] + rest;
      FirstOfShift(pre[1..], rest, kind, k);
    } else {
      assert pre + rest == rest;
    }
  }

  lemma {:induction false} FirstOfExtend<T>(items: seq<T>, post: seq<T>, kind: T -> Kind, k: Kind)
    ensures FirstOf(items + post, kind, k) ==
              if FirstOf(items, kind, k) < |items| then FirstOf(items, kind, k)
              else |items| + FirstOf(post, kind, k)
    decreases |items|
  {
    if items != [] {
      assert (items + post)[1..] == items[1..] + post;
      FirstOfExtend(items[1..], post, kind, k);
    } else {
      assert items + post == post;
    }
  }

  /** Items before the first header or kstats item change nothing. */
  lemma PreambleIgnored<T>(pre: seq<T>, rest: seq<T>, kind: T -> Kind)
    requires forall j :: 0 <= j < |pre| ==> kind(pre[j]) != Header && kind(pre[j]) != Kstats
    ensures JobItems(pre + rest, kind) == JobItems(rest, kind)
    ensures KstatsItem(pre + rest, kind) == KstatsItem(rest, kind)
  {
    var items := pre + rest;
    FirstOfShift(pre, rest, kind, Header);
    FirstOfShift(pre, rest, kind, Kstats);
    var h, k := FirstOf(rest, kind, Header), FirstOf(rest, kind, Kstats);
    if h < k {
      SliceShift(pre, rest, h, k);
    }
  }

  lemma SliceShift<T>(pre: seq<T>, rest: seq<T>, i: nat, j: nat)
    requires i <= j <= |rest|
    ensures (pre + rest)[|pre| + i..|pre| + j] == rest[i..j]
  {
  }

  /** Nothing after the first kstats item is ever looked at. */
  lemma StopsAtKstats<T>(items: seq<T>, post: seq<T>, kind: T -> Kind)
    requires KstatsItem(items, kind).Some?
    ensures JobItems(items + post, kind) == JobItems(items, kind)
    ensures KstatsItem(items + post, kind) == KstatsItem(items, kind)
  {
    var all := items + post;
    FirstOfExtend(items, post, kind, Kstats);
    FirstOfExtend(items, post, kind, Header);
    var h, k := FirstOf(items, kind, Header), FirstOf(items, kind, Kstats);
    assert all[k] == items[k];
    if h < k {
      assert all[h..k] == items[h..k];
    }
  }

  /** A log laid out as the harness writes it (a preamble, a header, the job
      records, a kstats item, anything after) yields exactly its records as
      jobs and its kstats item as the snapshot. */
  lemma ScanOfLayout<T>(pre: seq<T>, header: T, recs: seq<T>, kst: T, post: seq<T>, kind: T -> Kind)
    requires forall j :: 0 <= j < |pre| ==> kind(pre[j]) != Header && kind(pre[j]) != Kstats
    requires kind(header) == Header && kind(kst) == Kstats
    requires forall j :: 0 <= j < |recs| ==> kind(recs[j]) == Record
    ensures JobItems(pre + [header] + recs + [kst] + post, kind) == recs
    ensures KstatsItem(pre + [header] + recs + [kst] + post, kind) == Some(kst)
  {
    var body := [header] + recs + [kst];
    assert pre + [header] + recs + [kst] + post == pre + (body + post);
    PreambleIgnored(pre, body + post, kind);
    BodyShape(header, recs, kst, kind);
    StopsAtKstats(body, post, kind);
    RecordsConcat([header], recs, kind);
    RecordsAll(recs, kind);
    RecordsSingle(header, kind);
  }

  /** Where the header and the kstats item sit in header, records, kstats. */
  lemma BodyShape<T>(header: T, recs: seq<T>, kst: T, kind: T -> Kind)
    requires kind(header) == Header && kind(kst) == Kstats
    requires forall j :: 0 <= j < |recs| ==> kind(recs[j]) == Record
    ensures FirstOf([header] + recs + [kst], kind, Header) == 0
    ensures FirstOf([header] + recs + [kst], kind, Kstats) == |recs| + 1
    ensures ([header] + recs + [kst])[0..|recs| + 1] == [header] + recs
    ensures KstatsItem([header] + recs + [kst], kind) == Some(kst)
  {
    var body := [header] + recs + [kst];
    forall j | 0 <= j < |recs| + 1
      ensures kind(body[j]) != Kstats
    {
      if j > 0 { assert body[j] == recs[j - 1]; }
    }
    FirstOfIs(body, kind, Kstats, |recs| + 1);
  }

  lemma {:induction false} RecordsAll<T>(recs: seq<T>, kind: T -> Kind)
    requires forall j :: 0 <= j < |recs| ==> kind(recs[j]) == Record
    ensures Records(recs, kind) == recs
  {
    if recs != [] {
      RecordsAll(recs[..|recs| - 1], kind);
      assert recs == recs[..|recs| - 1] + [recs[|recs| - 1]];
    }
  }

  /** The first item of kind `k` is at `i` when none comes before it and
      the item at `i` has that kind. */
  lemma FirstOfIs<T>(items: seq<T>, kind: T -> Kind, k: Kind, i: nat)
    requires i <= |items|
    requires forall j :: 0 <= j < i ==> kind(items[j]) != k
    requires i < |items| ==> kind(items[i]) == k
    ensures FirstOf(items, kind, k) == i
  {
  }

  /** Decoding one more item appends its value, or raises its exception,
      unless an earlier item raised already. */
  lemma DecodeEachSnoc<T, U>(items: seq<T>, x: T, decode: T -> Result<U>)
    ensures DecodeEach(items + [x], decode) ==
              match DecodeEach(items, decode)
              case Err(e) => Err(e)
              case Ok(prev) =>
                match decode(x)
                case Ok(v) => Ok(prev + [v])
                case Err(e) => Err(e)
  {
    assert (items + [x])[..|items|] == items;
  }

  /** Once a prefix raises, the whole decode pass raises the same exception. */
  lemma {:induction false} DecodeEachPrefixErr<T, U>(p: seq<T>, items: seq<T>, decode: T -> Result<U>)
    requires p <= items && DecodeEach(p, decode).Err?
    ensures DecodeEach(items, decode) == DecodeEach(p, decode)
    decreases |items|
  {
    if |items| > |p| {
      var init := items[..|items| - 1];
      assert p <= init;
      DecodeEachPrefixErr(p, init, decode);
    } else {
      assert p == items;
    }
  }

  /** One step of the scan before the first kstats item: the section is on
      after the item when it was on before or the item is a header, and the
      item becomes a job exactly when it is a record inside the section. */
  lemma ScanStep<T>(items: seq<T>, kind: T -> Kind, i: nat)
    requires i < |items| && i <= FirstOf(items, kind, Kstats) && kind(items[i]) != Kstats
    ensures i + 1 <= FirstOf(items, kind, Kstats)
    ensures FirstOf(items, kind, Header) < i + 1 <==> FirstOf(items, kind, Header) < i || kind(items[i]) == Header
    ensures JobsBefore(items, kind, i + 1) ==
              JobsBefore(items, kind, i) +
              (if FirstOf(items, kind, Header) < i && kind(items[i]) == Record then [items[i]] else [])
  {
    var h := FirstOf(items, kind, Header);
    if h < i {
      JobsBeforeStep(items, kind, i);
    } else if h == i {
      JobsBeforeIdle(items, kind, i);
    }
  }

  /** At the first kstats item the jobs are complete and the snapshot is that item. */
  lemma ScanAtKstats<T>(items: seq<T>, kind: T -> Kind, i: nat)
    requires i < |items| && i <= FirstOf(items, kind, Kstats) && kind(items[i]) == Kstats
    ensures JobItems(items, kind) == JobsBefore(items, kind, i)
    ensures KstatsItem(items, kind) == Some(items[i])
  {
    FirstOfIs(items, kind, Kstats, i);
  }

  /** Without a kstats item the jobs are those of the whole input and there
      is no snapshot. */
  lemma ScanAtEnd<T>(items: seq<T>, kind: T -> Kind)
    requires |items| <= FirstOf(items, kind, Kstats)
    ensures JobItems(items, kind) == JobsBefore(items, kind, |items|)
    ensures KstatsItem(items, kind) == None
  {
    FirstOfIs(items, kind, Kstats, |items|);
  }

  /** An exception raised by a job before the first kstats item is the one
      the whole decode pass raises. */
  lemma JobErrorIsFinal<T, U>(items: seq<T>, kind: T -> Kind, decode: T -> Result<U>, k: nat)
    requires k <= FirstOf(items, kind, Kstats) && DecodeEach(JobsBefore(items, kind, k), decode).Err?
    ensures DecodeEach(JobItems(items, kind), decode) == DecodeEach(JobsBefore(items, kind, k), decode)
  {
    JobsBeforePrefix(items, kind, k, FirstOf(items, kind, Kstats));
    DecodeEachPrefixErr(JobsBefore(items, kind, k), JobItems(items, kind), decode);
  }

  // ---------------------------------------------------------------------------
  // The reader loop's state

  /** What a reader knows after the items before `i`: no kstats item yet,
      `inData` says whether a header was seen, and `done` holds the decoded
      jobs so far. */
  ghost predicate Scanned<T, U>(items: seq<T>, kind: T -> Kind, decode: T -> Result<U>,
                                i: nat, inData: bool, done: seq<U>)
  {
    && i <= |items| && i <= FirstOf(items, kind, Kstats)
    && (inData <==> FirstOf(items, kind, Header) < i)
    && DecodeEach(JobsBefore(items, kind, i), decode) == Ok(done)
  }

  /** A record inside the section whose decoding raises: the whole pass
      raises the same exception. */
  lemma ScanRecordRaises<T, U>(items: seq<T>, kind: T -> Kind, decode: T -> Result<U>, i: nat, done: seq<U>)
    requires Scanned(items, kind, decode, i, true, done)
    requires i < |items| && kind(items[i]) == Record && decode(items[i]).Err?
    ensures DecodeEach(JobItems(items, kind), decode) == Err(decode(items[i]).error)
  {
    assert FirstOf(items, kind, Header) < i;
    ScanInside(items, kind, i);
    DecodeEachSnocErr(JobsBefore(items, kind, i), items[i], decode);
    JobErrorIsFinal(items, kind, decode, i + 1);
  }

  /** A record inside the section, before the first kstats item, is the
      next job. */
  lemma ScanInside<T>(items: seq<T>, kind: T -> Kind, i: nat)
    requires FirstOf(items, kind, Header) < i < |items| && i <= FirstOf(items, kind, Kstats)
    requires kind(items[i]) == Record
    ensures i + 1 <= FirstOf(items, kind, Kstats)
    ensures JobsBefore(items, kind, i + 1) == JobsBefore(items, kind, i) + [items[i]]
  {
    JobsBeforeStep(items, kind, i);
  }

  /** After items that decode, one that raises makes the pass raise its exception. */
  lemma DecodeEachSnocErr<T, U>(items: seq<T>, x: T, decode: T -> Result<U>)
    requires DecodeEach(items, decode).Ok? && decode(x).Err?
    ensures DecodeEach(items + [x], decode) == Err(decode(x).error)
  {
    DecodeEachSnoc(items, x, decode);
  }

  /** At the first kstats item the decoded jobs are final. */
  lemma ScanKstats<T, U>(items: seq<T>, kind: T -> Kind, decode: T -> Result<U>,
                         i: nat, inData: bool, done: seq<U>)
    requires Scanned(items, kind, decode, i, inData, done)
    requires i < |items| && kind(items[i]) == Kstats
    ensures DecodeEach(JobItems(items, kind), decode) == Ok(done)
    ensures KstatsItem(items, kind) == Some(items[i])
  {
    ScanAtKstats(items, kind, i);
  }

  /** At the end of an input without a kstats item the decoded jobs are final. */
  lemma ScanEnd<T, U>(items: seq<T>, kind: T -> Kind, decode: T -> Result<U>, inData: bool, done: seq<U>)
    requires Scanned(items, kind, decode, |items|, inData, done)
    ensures DecodeEach(JobItems(items, kind), decode) == Ok(done)
    ensures KstatsItem(items, kind) == None
  {
    ScanAtEnd(items, kind);
  }

  // ---------------------------------------------------------------------------
  // The reader loop, one item at a time

  /** Where a reader stands: whether it met the kstats item and stopped,
      whether it is inside the section, and the jobs decoded so far. */
  datatype ScanState<U> = ScanState(stopped: bool, inData: bool, done: Result<seq<U>>)

  /** The reader's state after one more item. */
  function ScanNext<T, U>(s: ScanState<U>, x: T, kind: T -> Kind, decode: T -> Result<U>): ScanState<U>
  {
    if s.stopped then s
    else
      match kind(x)
      case Kstats => s.(stopped := true)
      case Header => s.(inData := true)
      case Skip => s
      case Record =>
        if !s.inData then s
        else
          match s.done
          case Err(_) => s
          case Ok(prev) =>
            match decode(x)
            case Ok(v) => s.(done := Ok(prev + [v]))
            case Err(e) => s.(done := Err(e))
  }

  /** The reader's state after the first `i` items. */
  function ScanPrefix<T, U>(items: seq<T>, kind: T -> Kind, decode: T -> Result<U>, i: nat): ScanState<U>
    requires i <= |items|
  {
    if i == 0 then ScanState(false, false, Ok([]))
    else ScanNext(ScanPrefix(items, kind, decode, i - 1), items[i - 1], kind, decode)
  }

  /** Until it stops, the item-by-item reader agrees with the layout: it has
      met no kstats item, it is inside the section exactly after the first
      header, and its jobs are the decoded records between the two. */
  lemma {:induction false} ScanPrefixMeaning<T, U>(items: seq<T>, kind: T -> Kind, decode: T -> Result<U>, i: nat)
    requires i <= |items|
    ensures !ScanPrefix(items, kind, decode, i).stopped ==>
              && i <= FirstOf(items, kind, Kstats)
              && (ScanPrefix(items, kind, decode, i).inData <==> FirstOf(items, kind, Header) < i)
              && ScanPrefix(items, kind, decode, i).done == DecodeEach(JobsBefore(items, kind, i), decode)
  {
    if i == 0 {
      assert JobsBefore(items, kind, 0) == [];
    } else {
      var j := i - 1;
      ScanPrefixMeaning(items, kind, decode, j);
      var s := ScanPrefix(items, kind, decode, j);
      if !s.stopped && kind(items[j]) != Kstats {
        ScanStep(items, kind, j);
        var jobs := JobsBefore(items, kind, j);
        if s.inData && kind(items[j]) == Record {
          assert JobsBefore(items, kind, i) == jobs + [items[j]];
          DecodeEachSnoc(jobs, items[j], decode);
        } else {
          assert JobsBefore(items, kind, i) == jobs + [] == jobs;
        }
      }
    }
  }

  /** A reader that has not stopped and whose jobs decoded holds the scan's state. */
  lemma ScanPrefixScanned<T, U>(items: seq<T>, kind: T -> Kind, decode: T -> Result<U>,
                                i: nat, inData: bool, done: seq<U>)
    requires i <= |items| && ScanPrefix(items, kind, decode, i) == ScanState(false, inData, Ok(done))
    ensures Scanned(items, kind, decode, i, inData, done)
  {
    ScanPrefixMeaning(items, kind, decode, i);
  }
}
