/** lua/json_reporter.go: a reporter writing one JSON object per line.
    The callbacks handed to RunFile and RunTest are modelled as scripts of
    the reporter calls they make. */
module JsonReporter {
  import opened Suite

  /** A value in a record: a string, or the structured Info of a call log. */
  datatype Field = Text(s: string) | InfoField(info: Info)

  /** One encoded JSON object, by key. */
  type Record = map<string, Field>

  /** A reporter call a callback makes on the reporter it is handed. */
  datatype Call =
    | ErrorCall(message: string)
    | InfoCall(info: Info)
    | TestCall(runner: string, name: string, body: seq<Call>)

  function FileRecord(file: string, action: string): Record {
    map["file" := Text(file), "action" := Text(action)]
  }

  function TestRecord(file: string, name: string, runner: string, action: string): Record {
    map["file" := Text(file), "name" := Text(name), "runner" := Text(runner), "action" := Text(action)]
  }

  function ErrorRecord(message: string, file: string, name: string, runner: string): Record {
    map["error" := Text(message), "file" := Text(file), "name" := Text(name), "runner" := Text(runner)]
  }

  function InfoRecord(info: Info, file: string, name: string, runner: string): Record {
    map["info" := InfoField(info), "file" := Text(file), "name" := Text(name), "runner" := Text(runner)]
  }

  /** The records a script writes on a reporter bound to file, name and
      runner. A nested test is bound to the same file. */
  function Records(file: string, name: string, runner: string, calls: seq<Call>): seq<Record>
    decreases calls
  {
    if calls == [] then []
    else Records(file, name, runner, calls[..|calls| - 1]) + CallRecords(file, name, runner, calls[|calls| - 1])
  }

  function CallRecords(file: string, name: string, runner: string, c: Call): seq<Record>
    decreases c
  {
    match c
    case ErrorCall(m) => [ErrorRecord(m, file, name, runner)]
    case InfoCall(i) => [InfoRecord(i, file, name, runner)]
    case TestCall(r, n, body) =>
      [TestRecord(file, n, r, "start")] + Records(file, n, r, body) + [TestRecord(file, n, r, "end")]
  }

  /** The records of a whole file run. */
  function FileRecords(filename: string, body: seq<Call>): seq<Record> {
    [FileRecord(filename, "start")] + Records(filename, "", "", body) + [FileRecord(filename, "end")]
  }

  /** The number of records a script writes: one per error and info call,
      two more per test. */
  function Count(calls: seq<Call>): nat
    decreases calls
  {
    if calls == [] then 0 else Count(calls[..|calls| - 1]) + CallCount(calls[|calls| - 1])
  }

  function CallCount(c: Call): nat
    decreases c
  {
    match c
    case TestCall(_, _, body) => Count(body) + 2
    case _ => 1
  }

  /** Every record a script writes is tagged with the reporter's file. */
  lemma {:induction false} RecordsTaggedWithFile(file: string, name: string, runner: string, calls: seq<Call>)
    decreases calls
    ensures |Records(file, name, runner, calls)| == Count(calls)
    ensures forall r :: r in Records(file, name, runner, calls) ==> "file" in r && r["file"] == Text(file)
  {
    if calls != [] {
      var last := calls[|calls| - 1];
      RecordsTaggedWithFile(file, name, runner, calls[..|calls| - 1]);
      if last.TestCall? {
        RecordsTaggedWithFile(file, last.name, last.runner, last.body);
      }
    }
  }

  /** Error and info records at the top level of a script carry the
      reporter's name and runner; those inside a test carry the test's. */
  lemma {:induction false} TopLevelTagged(file: string, name: string, runner: string, calls: seq<Call>, i: nat)
    requires i < |calls| && !calls[i].TestCall?
    ensures CallRecords(file, name, runner, calls[i])[0] in Records(file, name, runner, calls)
    ensures CallRecords(file, name, runner, calls[i])[0]["name"] == Text(name)
    ensures CallRecords(file, name, runner, calls[i])[0]["runner"] == Text(runner)
    decreases calls
  {
    var n := |calls| - 1;
    var rs := Records(file, name, runner, calls);
    var pre := Records(file, name, runner, calls[..n]);
    if i == n {
      assert rs == pre + CallRecords(file, name, runner, calls[n]);
      assert rs[|pre|] == CallRecords(file, name, runner, calls[i])[0];
    } else {
      assert calls[..n][i] == calls[i];
      TopLevelTagged(file, name, runner, calls[..n], i);
      var k :| 0 <= k < |pre| && pre[k] == CallRecords(file, name, runner, calls[i])[0];
      assert rs[k] == pre[k];
    }
  }

  /** A file run writes exactly one start record first and one end record
      last. */
  lemma FileRunFramed(filename: string, body: seq<Call>)
    ensures var rs := FileRecords(filename, body);
      && rs[0] == FileRecord(filename, "start") && rs[|rs| - 1] == FileRecord(filename, "end")
      && |rs| == Count(body) + 2
      && forall k :: 0 < k < |rs| - 1 ==> "name" in rs[k]
  {
    var inner := Records(filename, "", "", body);
    RecordsTaggedWithFile(filename, "", "", body);
    NoFileRecords(filename, "", "", body);
    var rs := FileRecords(filename, body);
    forall k | 0 < k < |rs| - 1
      ensures "name" in rs[k]
    {
      assert rs[k] == inner[k - 1];
    }
  }

  /** A script writes no file-level record: each of its records has a
      "name" key. */
  lemma {:induction false} NoFileRecords(file: string, name: string, runner: string, calls: seq<Call>)
    decreases calls
    ensures forall r :: r in Records(file, name, runner, calls) ==> "name" in r && "file" in r
  {
    if calls != [] {
      var last := calls[|calls| - 1];
      NoFileRecords(file, name, runner, calls[..|calls| - 1]);
      if last.TestCall? {
        NoFileRecords(file, last.name, last.runner, last.body);
      }
    }
  }

  /** The encoder's output stream. Encoding failures are ignored by every
      caller, so none are modelled. */
  class Encoder {
    var records: seq<Record>

    constructor ()
      ensures records == []
    {
      records := [];
    }

    method Encode(r: Record)
      modifies this
      ensures records == old(records) + [r]
    {
      records := records + [r];
    }
  }

  class JsonReporter {
    const file: string
    const name: string
    const runner: string
    const w: Encoder

    /** NewJSONReporter: bound to no file. */
    constructor (w: Encoder)
      ensures this.w == w && file == "" && name == "" && runner == ""
    {
      this.w := w;
      file, name, runner := "", "", "";
    }

    /** The reporter handed to a callback, sharing the encoder. */
    constructor Bound(w: Encoder, file: string, name: string, runner: string)
      ensures this.w == w && this.file == file && this.name == name && this.runner == runner
    {
      this.w := w;
      this.file, this.name, this.runner := file, name, runner;
    }

    method RunFile(filename: string, body: seq<Call>)
      modifies w
      ensures w.records == old(w.records) + FileRecords(filename, body)
    {
      w.Encode(FileRecord(filename, "start"));
      var child := new JsonReporter.Bound(w, filename, "", "");
      child.Run(body);
      w.Encode(FileRecord(filename, "end"));
    }

    method RunTest(runner: string, name: string, body: seq<Call>)
      modifies w
      decreases body, 1
      ensures w.records == old(w.records) + CallRecords(file, this.name, this.runner, TestCall(runner, name, body))
    {
      w.Encode(TestRecord(file, name, runner, "start"));
      var child := new JsonReporter.Bound(w, file, name, runner);
      child.Run(body);
      w.Encode(TestRecord(file, name, runner, "end"));
    }

    method Error(message: string)
      modifies w
      ensures w.records == old(w.records) + [ErrorRecord(message, file, name, runner)]
    {
      w.Encode(ErrorRecord(message, file, name, runner));
    }

    method Info(info: Info)
      modifies w
      ensures w.records == old(w.records) + [InfoRecord(info, file, name, runner)]
    {
      w.Encode(InfoRecord(info, file, name, runner));
    }

    /** A callback: its calls made in order on this reporter. */
    method Run(calls: seq<Call>)
      modifies w
      decreases calls, 0
      ensures w.records == old(w.records) + Records(file, name, runner, calls)
    {
      var i := 0;
      while i < |calls|
        invariant 0 <= i <= |calls|
        invariant w.records == old(w.records) + Records(file, name, runner, calls[..i])
      {
        assert calls[..i + 1][..i] == calls[..i];
        match calls[i] {
          case ErrorCall(m) => Error(m);
          case InfoCall(info) => Info(info);
          case TestCall(r, n, body) => RunTest(r, n, body);
        }
        i := i + 1;
      }
      assert calls[..i] == calls;
    }
  }
}
