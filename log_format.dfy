/** The pieces of the harness log format that both scripts decode the same
    way: which text line is which, the `kstats` snapshot, the integer
    conversion of a list of fields, and the "strip newline" step. */
module LogFormat {
  import opened PyRuntime
  import opened LogScan

  /** One kernel snapshot: the `kernel` object of SAD_dataVisualization.py,
      or the `{"ctx", "preempt", "readyq_max", "readyq_cur"}` dict of
      dataVisualization.py. */
  datatype Kernel = Kernel(ctx: int, preempt: int, readyqMax: int, readyqCur: int)

  /** The if/elif chain of `readTextFile` on one line: a line whose first
      seven characters are `task_id` is the header, one whose first six are
      `kstats` is the snapshot, any other line but a bare newline is a record. */
  function ClassifyLine(line: string): Kind
  {
    if PrefixSlice(line, 7) == "task_id" then Header
    else if PrefixSlice(line, 6) == "kstats" then Kstats
    else if line != "\n" then Record
    else Skip
  }

  /** `int(data[0]), ..., int(data[n - 1])`, evaluated left to right: the
      first index past the end raises IndexError, the first field that is
      not an integer raises ValueError. */
  function IntFields(data: seq<string>, n: nat): (r: Result<seq<int>>)
    ensures r.Ok? <==> n <= |data| && forall i :: 0 <= i < n ==> ParseInt(data[i]).Some?
    ensures r.Ok? ==> |r.value| == n && forall i :: 0 <= i < n ==> ParseInt(data[i]) == Some(r.value[i])
    ensures r == Err(IndexError) <==> |data| < n && forall j :: 0 <= j < |data| ==> ParseInt(data[j]).Some?
    ensures r.Err? ==> r.error == IndexError || r.error == ValueError
  {
    if n == 0 then Ok([])
    else
      var prev :- IntFields(data, n - 1);
      if n - 1 >= |data| then Err(IndexError)
      else match ParseInt(data[n - 1])
        case None => Err(ValueError)
        case Some(v) => Ok(prev + [v])
  }

  /** Fields that all convert give their values. */
  lemma IntFieldsOf(data: seq<string>, values: seq<int>)
    requires |data| == |values|
    requires forall i :: 0 <= i < |data| ==> ParseInt(data[i]) == Some(values[i])
    ensures IntFields(data, |data|) == Ok(values)
  {
    var r := IntFields(data, |data|);
    assert r.Ok?;
    assert r.value == values;
  }

  /** The printed forms `str(v)` of the values `vs`. */
  function Printed(vs: seq<int>): (fs: seq<string>)
    ensures |fs| == |vs| && forall i :: 0 <= i < |vs| ==> fs[i] == IntToString(vs[i])
  {
    seq(|vs|, i requires 0 <= i < |vs| => IntToString(vs[i]))
  }

  /** Converting printed values gives them back; asking for more fields
      than were printed raises IndexError. */
  lemma IntFieldsOfPrinted(vs: seq<int>, n: nat)
    ensures n <= |vs| ==> IntFields(Printed(vs), n) == Ok(vs[..n])
    ensures n > |vs| ==> IntFields(Printed(vs), n) == Err(IndexError)
  {
    var fs := Printed(vs);
    forall i | 0 <= i < |vs| ensures ParseInt(fs[i]) == Some(vs[i]) {
      ParseIntOfString(vs[i]);
    }
    if n <= |vs| {
      var r := IntFields(fs, n);
      assert r.Ok?;
      assert r.value == vs[..n];
    }
  }

  /** `kernel(data)`: the four counters in the order ctx, preempt,
      readyq_max, readyq_cur. */
  function DecodeKernel(data: seq<string>): (r: Result<Kernel>)
    ensures r.Ok? <==> IntFields(data, 4).Ok?
    ensures r.Ok? ==> (&& ParseInt(data[0]) == Some(r.value.ctx)
                       && ParseInt(data[1]) == Some(r.value.preempt)
                       && ParseInt(data[2]) == Some(r.value.readyqMax)
                       && ParseInt(data[3]) == Some(r.value.readyqCur))
  {
    var v :- IntFields(data, 4);
    Ok(Kernel(v[0], v[1], v[2], v[3]))
  }

  /** Four fields that convert give the snapshot of their values. */
  lemma DecodeKernelOf(f0: string, f1: string, f2: string, f3: string,
                       ctx: int, preempt: int, readyqMax: int, readyqCur: int)
    requires ParseInt(f0) == Some(ctx) && ParseInt(f1) == Some(preempt)
    requires ParseInt(f2) == Some(readyqMax) && ParseInt(f3) == Some(readyqCur)
    ensures DecodeKernel([f0, f1, f2, f3]) == Ok(Kernel(ctx, preempt, readyqMax, readyqCur))
  {
    IntFieldsOf([f0, f1, f2, f3], [ctx, preempt, readyqMax, readyqCur]);
  }

  /** `elem.split('=')[1]` for every `key=value` field: the text after the
      first `=` up to the next one; a field without `=` raises IndexError. */
  function KstatsValues(fields: seq<string>): (r: Result<seq<string>>)
    ensures r.Ok? <==> forall i :: 0 <= i < |fields| ==> |Split(fields[i], '=')| >= 2
    ensures r.Ok? ==> (&& |r.value| == |fields|
                       && forall i :: 0 <= i < |fields| ==> r.value[i] == Split(fields[i], '=')[1])
    ensures r.Err? ==> r.error == IndexError
  {
    if fields == [] then Ok([])
    else
      var prev :- KstatsValues(fields[..|fields| - 1]);
      var parts := Split(fields[|fields| - 1], '=');
      if |parts| < 2 then Err(IndexError) else Ok(prev + [parts[1]])
  }

  /** The loop `for elem in temp: data.append(elem.split('=')[1])`. */
  method ExtractValues(fields: seq<string>) returns (r: Result<seq<string>>)
    ensures r == KstatsValues(fields)
  {
    var data: seq<string> := [];
    var i := 0;
    while i < |fields|
      invariant i <= |fields|
      invariant KstatsValues(fields[..i]) == Ok(data)
    {
      var parts := Split(fields[i], '=');
      assert fields[..i + 1][..i] == fields[..i];
      if |parts| < 2 {
        assert !KstatsValues(fields).Ok?;
        return Err(IndexError);
      }
      data := data + [parts[1]];
      i := i + 1;
    }
    assert fields[..i] == fields;
    return Ok(data);
  }

  /** Every field holds a `=`. */
  predicate Keyed(fields: seq<string>)
  {
    forall k :: 0 <= k < |fields| ==> |Split(fields[k], '=')| >= 2
  }

  /** The texts after `=` of the first `n` fields all convert with `int()`. */
  predicate ValuesConvert(fields: seq<string>, n: nat)
    requires Keyed(fields) && n <= |fields|
  {
    forall k :: 0 <= k < n ==> ParseInt(Split(fields[k], '=')[1]).Some?
  }

  /** The fields after the `kstats` tag, decoded into one snapshot: it
      succeeds iff every field holds a `=` and there are at least four whose
      values convert, and then holds those four values in order. A field
      without `=`, or too few fields, raises IndexError; a value that does
      not convert raises ValueError. */
  function DecodeKstatsFields(fields: seq<string>): (r: Result<Kernel>)
    ensures r.Ok? <==> Keyed(fields) && |fields| >= 4 && ValuesConvert(fields, 4)
    ensures r == Err(IndexError) <==>
              !Keyed(fields) || (|fields| < 4 && ValuesConvert(fields, |fields|))
    ensures r.Err? ==> r.error == IndexError || r.error == ValueError
    ensures r.Ok? ==> (&& ParseInt(Split(fields[0], '=')[1]) == Some(r.value.ctx)
                       && ParseInt(Split(fields[1], '=')[1]) == Some(r.value.preempt)
                       && ParseInt(Split(fields[2], '=')[1]) == Some(r.value.readyqMax)
                       && ParseInt(Split(fields[3], '=')[1]) == Some(r.value.readyqCur))
  {
    var data :- KstatsValues(fields);
    DecodeKernel(data)
  }

  /** The `kstats` branch of `readTextFile`: split the line at commas, drop
      the tag, take each value after `=`, convert four of them. The outcome
      is decided by the fields after the first comma alone. */
  function DecodeKstatsLine(line: string): (r: Result<Kernel>)
    ensures var fields := Split(line, ',')[1..];
            && (r.Ok? <==> Keyed(fields) && |fields| >= 4 && ValuesConvert(fields, 4))
            && (r == Err(IndexError) <==>
                  !Keyed(fields) || (|fields| < 4 && ValuesConvert(fields, |fields|)))
            && (r.Err? ==> r.error == IndexError || r.error == ValueError)
            && (r.Ok? ==> (&& ParseInt(Split(fields[0], '=')[1]) == Some(r.value.ctx)
                           && ParseInt(Split(fields[1], '=')[1]) == Some(r.value.preempt)
                           && ParseInt(Split(fields[2], '=')[1]) == Some(r.value.readyqMax)
                           && ParseInt(Split(fields[3], '=')[1]) == Some(r.value.readyqCur)))
  {
    DecodeKstatsFields(Split(line, ',')[1..])
  }

  /** The `kstats` branch of `readTextFile` as statements. */
  method ReadKstatsLine(line: string) returns (r: Result<Kernel>)
    ensures r == DecodeKstatsLine(line)
  {
    var temp := Split(line, ',')[1..];
    var data := ExtractValues(temp);
    if data.Err? {
      return Err(data.error);
    }
    r := DecodeKernel(data.value);
  }

  /** `data[-1] = data[-1][0]`: the last field keeps only its first
      character (meant to drop the newline); an empty last field raises
      IndexError. */
  function TruncateLast(data: seq<string>): (r: Result<seq<string>>)
    ensures r.Ok? <==> |data| >= 1 && data[|data| - 1] != []
    ensures r.Ok? ==> (&& |r.value| == |data|
                       && r.value[..|data| - 1] == data[..|data| - 1]
                       && r.value[|data| - 1] == data[|data| - 1][..1])
  {
    if |data| == 0 || data[|data| - 1] == [] then Err(IndexError)
    else Ok(data[..|data| - 1] + [[data[|data| - 1][0]]])
  }

  /** On a line whose last field is one character and the newline, the
      cut drops exactly the newline. */
  lemma TruncateLineEnd(fields: seq<string>, last: string)
    requires |last| == 1
    ensures TruncateLast(fields + [last + "\n"]) == Ok(fields + [last])
  {
    var data := fields + [last + "\n"];
    assert data[..|data| - 1] == fields;
    assert [data[|data| - 1][0]] == last;
  }
}
