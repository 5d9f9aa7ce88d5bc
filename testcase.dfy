/** One test case directory of the older harness (testmanager/testcase.go):
    runners are registered by file extension, and the files of the
    directory run in order until one fails, after which the remaining
    test files are skipped. */
module TestCase {
  import opened Wrappers
  import opened Strs

  // -----------------------------------------------------------------------
  // File names

  function TrimTrailingSlashes(s: string): (r: string)
    ensures r == [] || r[|r| - 1] != '/'
  {
    if s != [] && s[|s| - 1] == '/' then TrimTrailingSlashes(s[..|s| - 1]) else s
  }

  /** The text after the last "/". */
  function AfterLastSlash(s: string): (r: string)
    ensures forall i :: 0 <= i < |r| ==> r[i] != '/'
  {
    if s == [] || s[|s| - 1] == '/' then [] else AfterLastSlash(s[..|s| - 1]) + [s[|s| - 1]]
  }

  /** filepath.Base for "/"-separated paths. */
  function Base(path: string): (r: string)
    ensures r != "" && (r == "/" || forall i :: 0 <= i < |r| ==> r[i] != '/')
  {
    if path == "" then "."
    else
      var last := AfterLastSlash(TrimTrailingSlashes(path));
      if last == "" then "/" else last
  }

  /** ext: the last two dot-separated parts of the base name, or "" when it
      has fewer than three. */
  function Ext(name: string): (r: string)
    ensures r != "" ==> HasSuffix(Base(name), "." + r)
  {
    var parts := Split(Base(name), ".");
    if |parts| < 3 then "" else LastTwoIsSuffix(Base(name)); LastTwo(parts)
  }

  /** A runner of one file type: `extension` is what its Ext() returns. */
  datatype Runner = Runner(id: nat, extension: string)

  /** What runTestFile made of one file. */
  datatype FileResult =
    | NotATest        // the name does not end in ".test"
    | Skipped         // an earlier file of the case failed
    | NoRunner
    | Unreadable
    | Failed(error: string)
    | Passed

  predicate IsFailure(r: FileResult) {
    r.NoRunner? || r.Unreadable? || r.Failed?
  }

  /** What runTestFile makes of one file while no earlier file of the case
      has failed. */
  function Outcome(runners: map<string, Runner>, name: string, readable: bool,
                   run: (Runner, string) -> Option<string>): FileResult
  {
    if !HasSuffix(name, ".test") then NotATest
    else if Ext(name) !in runners then NoRunner
    else if !readable then Unreadable
    else match run(runners[Ext(name)], name)
      case Some(e) => Failed(e)
      case None => Passed
  }

  /** A file fails exactly when it is a test file and it has no runner, it
      cannot be read, or its runner reports an error. */
  lemma OutcomeFails(runners: map<string, Runner>, name: string, readable: bool,
                     run: (Runner, string) -> Option<string>)
    ensures IsFailure(Outcome(runners, name, readable, run)) <==>
      HasSuffix(name, ".test")
      && (Ext(name) !in runners || !readable || run(runners[Ext(name)], name).Some?)
    ensures !Outcome(runners, name, readable, run).Skipped?
  {
  }

  class Case {
    var runners: map<string, Runner>
    var hasError: bool

    constructor ()
      ensures runners == map[] && !hasError
    {
      runners := map[];
      hasError := false;
    }

    /** testCase.Register: the runner is keyed by its extension plus
        ".test"; a second runner for a key is refused. */
    method Register(runner: Runner) returns (err: Option<string>)
      modifies this
      ensures var key := runner.extension + ".test";
        && (key in old(runners) ==>
              err == Some("runner for extension " + Quote(key) + " already registered") && runners == old(runners))
        && (key !in old(runners) ==> err == None && runners == old(runners)[key := runner])
      ensures hasError == old(hasError)
    {
      var key := runner.extension + ".test";
      if key in runners {
        return Some("runner for extension " + Quote(key) + " already registered");
      }
      runners := runners[key := runner];
      return None;
    }

    /** runTestFile. Whether the file can be read and what the runner's
        Run returns for it are parameters. */
    method RunTestFile(name: string, readable: bool, run: (Runner, string) -> Option<string>)
      returns (result: FileResult)
      modifies this
      ensures result.NotATest? <==> !HasSuffix(name, ".test")
      ensures result.Skipped? <==> HasSuffix(name, ".test") && old(hasError)
      ensures result.NoRunner? <==> HasSuffix(name, ".test") && !old(hasError) && Ext(name) !in runners
      ensures result.Unreadable? <==>
        HasSuffix(name, ".test") && !old(hasError) && Ext(name) in runners && !readable
      ensures result.Failed? ==> Ext(name) in runners && run(runners[Ext(name)], name) == Some(result.error)
      ensures result.Passed? <==>
        HasSuffix(name, ".test") && !old(hasError) && Ext(name) in runners && readable
        && run(runners[Ext(name)], name).None?
      ensures result == if old(hasError) && HasSuffix(name, ".test") then Skipped
        else Outcome(old(runners), name, readable, run)
      ensures hasError == (old(hasError) || IsFailure(result))
      ensures runners == old(runners)
    {
      if !HasSuffix(name, ".test") {
        return NotATest;
      }
      if hasError {
        return Skipped;
      }
      var key := Ext(name);
      if key !in runners {
        hasError := true;
        return NoRunner;
      }
      var runner := runners[key];
      if !readable {
        hasError := true;
        return Unreadable;
      }
      var err := run(runner, name);
      if err.Some? {
        hasError := true;
        return Failed(err.value);
      }
      return Passed;
    }

    /** The files of the case in directory order: after the first failure
        every later test file is skipped. */
    method RunTestFiles(names: seq<string>, readable: string -> bool, run: (Runner, string) -> Option<string>)
      returns (results: seq<FileResult>)
      modifies this
      requires !hasError
      ensures |results| == |names|
      ensures forall j :: 0 <= j < |names| ==>
        results[j] == RunResult(old(runners), names, readable, run, results, j)
      ensures hasError <==> FailedBefore(results, |names|)
      ensures runners == old(runners)
    {
      results := [];
      for k := 0 to |names|
        invariant |results| == k
        invariant runners == old(runners)
        invariant hasError <==> FailedBefore(results, k)
        invariant forall j :: 0 <= j < k ==> results[j] == RunResult(runners, names, readable, run, results, j)
      {
        var r := RunTestFile(names[k], readable(names[k]), run);
        ghost var before := results;
        results := results + [r];
        FailedBeforeSnoc(before, r, k);
        forall j | 0 <= j <= k
          ensures results[j] == RunResult(runners, names, readable, run, results, j)
        {
          if j < k {
            FailedBeforePrefix(before, results, j);
          } else {
            FailedBeforePrefix(before, results, k);
          }
        }
      }
    }
  }

  /** Some file before position j failed. */
  predicate FailedBefore(results: seq<FileResult>, j: nat)
    requires j <= |results|
  {
    exists i :: 0 <= i < j && IsFailure(results[i])
  }

  /** The result of the j-th file: skipped when it is a test file and an
      earlier file failed, its own outcome otherwise. */
  function RunResult(runners: map<string, Runner>, names: seq<string>, readable: string -> bool,
                     run: (Runner, string) -> Option<string>, results: seq<FileResult>, j: nat): FileResult
    requires j < |names| && j <= |results|
  {
    if FailedBefore(results, j) && HasSuffix(names[j], ".test") then Skipped
    else Outcome(runners, names[j], readable(names[j]), run)
  }

  lemma FailedBeforePrefix(a: seq<FileResult>, b: seq<FileResult>, j: nat)
    requires j <= |a| <= |b| && a == b[..|a|]
    ensures FailedBefore(a, j) <==> FailedBefore(b, j)
  {
    if FailedBefore(b, j) {
      var i :| 0 <= i < j && IsFailure(b[i]);
      assert a[i] == b[i];
    }
  }

  lemma FailedBeforeSnoc(a: seq<FileResult>, r: FileResult, k: nat)
    requires k == |a|
    ensures FailedBefore(a + [r], k + 1) <==> FailedBefore(a, k) || IsFailure(r)
  {
    FailedBeforePrefix(a, a + [r], k);
    if FailedBefore(a + [r], k + 1) && !IsFailure(r) {
      var i :| 0 <= i < k + 1 && IsFailure((a + [r])[i]);
      assert FailedBefore(a + [r], k);
    }
    assert (a + [r])[k] == r;
  }

  /** After the first failure every later test file is skipped, a file is
      skipped only after a failure, and until then each file has its own
      outcome. */
  lemma RunResultMeans(runners: map<string, Runner>, names: seq<string>, readable: string -> bool,
                       run: (Runner, string) -> Option<string>, results: seq<FileResult>, i: nat, j: nat)
    requires |results| == |names| && i < |names| && j < |names|
    requires forall n :: 0 <= n < |names| ==> results[n] == RunResult(runners, names, readable, run, results, n)
    ensures i < j && IsFailure(results[i]) ==>
      results[j] == if HasSuffix(names[j], ".test") then Skipped else NotATest
    ensures results[j].Skipped? ==> FailedBefore(results, j)
    ensures !FailedBefore(results, j) ==> results[j] == Outcome(runners, names[j], readable(names[j]), run)
  {
    if i < j && IsFailure(results[i]) {
      assert FailedBefore(results, j);
    }
  }

  // -----------------------------------------------------------------------
  // Properties of ext

  lemma {:induction false} JoinAppend(a: seq<string>, b: seq<string>, sep: string)
    requires a != [] && b != []
    decreases |a|
    ensures Join(a + b, sep) == Join(a, sep) + sep + Join(b, sep)
  {
    if |a| > 1 {
      assert (a + b)[1..] == a[1..] + b;
      JoinAppend(a[1..], b, sep);
    }
  }

  /** The last two parts, joined. */
  function LastTwo(parts: seq<string>): string
    requires |parts| >= 2
  {
    Join(parts[|parts| - 2..], ".")
  }

  lemma LastTwoIs(parts: seq<string>)
    requires |parts| >= 2
    ensures LastTwo(parts) == parts[|parts| - 2] + "." + parts[|parts| - 1]
  {
    var n := |parts|;
    var tail := parts[n - 2..];
    assert tail == [parts[n - 2], parts[n - 1]];
    assert tail[1..] == [parts[n - 1]];
    assert Join(tail[1..], ".") == parts[n - 1];
  }

  /** A base name of three parts or more ends with "." and its last two
      parts. */
  lemma LastTwoIsSuffix(base: string)
    requires |Split(base, ".")| >= 3
    ensures HasSuffix(base, "." + LastTwo(Split(base, ".")))
  {
    var dot := ".";
    var parts := Split(base, dot);
    var n := |parts|;
    var tail := parts[n - 2..];
    assert parts == parts[..n - 2] + tail;
    JoinAppend(parts[..n - 2], tail, dot);
    JoinSplit(base, dot);
    SuffixOfConcat(Join(parts[..n - 2], dot), dot, Join(tail, dot));
  }

  lemma SuffixOfConcat(a: string, b: string, c: string)
    ensures HasSuffix(a + b + c, b + c)
  {
    assert a + b + c == a + (b + c);
  }

  /** The last two parts split back into two. */
  lemma LastTwoSplits(base: string)
    requires |Split(base, ".")| >= 3
    ensures |Split(LastTwo(Split(base, ".")), ".")| == 2
  {
    var parts := Split(base, ".");
    var n := |parts|;
    var tail := parts[n - 2..];
    SplitPiecesFree(base, ".");
    assert forall k :: 0 <= k < |tail| ==> tail[k] == parts[n - 2 + k];
    SplitJoin(tail, ".");
  }

  /** ext is "" exactly for base names with fewer than three parts;
      otherwise it is the base name's last two parts, after a ".". */
  lemma ExtIsLastTwoParts(name: string)
    ensures Ext(name) == "" <==> |Split(Base(name), ".")| < 3
    ensures Ext(name) != "" ==> HasSuffix(Base(name), "." + Ext(name)) && |Split(Ext(name), ".")| == 2
  {
    var base := Base(name);
    var parts := Split(base, ".");
    if |parts| >= 3 {
      LastTwoIs(parts);
      LastTwoIsSuffix(base);
      LastTwoSplits(base);
    }
  }

  lemma {:induction false} AfterLastSlashOfPath(dir: string, b: string)
    requires forall i :: 0 <= i < |b| ==> b[i] != '/'
    decreases |b|
    ensures AfterLastSlash(dir + "/" + b) == b
  {
    var s := dir + "/" + b;
    if b == [] {
      assert s[|s| - 1] == '/';
    } else {
      assert s[..|s| - 1] == dir + "/" + b[..|b| - 1];
      AfterLastSlashOfPath(dir, b[..|b| - 1]);
      assert b == b[..|b| - 1] + [b[|b| - 1]];
    }
  }

  lemma {:induction false} AfterLastSlashOfName(b: string)
    requires forall i :: 0 <= i < |b| ==> b[i] != '/'
    decreases |b|
    ensures AfterLastSlash(b) == b
  {
    if b != [] {
      AfterLastSlashOfName(b[..|b| - 1]);
      assert b == b[..|b| - 1] + [b[|b| - 1]];
    }
  }

  /** A name without "/" is its own base name. */
  lemma BaseOfPlainName(name: string)
    requires name != "" && '/' !in name
    ensures Base(name) == name
  {
    AfterLastSlashOfName(name);
  }

  /** ext looks only at the base name: the directories do not matter. */
  lemma ExtIgnoresDirectory(dir: string, b: string)
    requires b != "" && forall i :: 0 <= i < |b| ==> b[i] != '/'
    ensures Ext(dir + "/" + b) == Ext(b)
  {
    assert TrimTrailingSlashes(dir + "/" + b) == dir + "/" + b;
    AfterLastSlashOfPath(dir, b);
    AfterLastSlashOfName(b);
  }

  /** Splitting after a first piece free of the separator. */
  lemma SplitCons(a: string, rest: string, c: char)
    requires c !in a
    ensures Split(a + [c] + rest, [c]) == [a] + Split(rest, [c])
  {
    var s := a + [c] + rest;
    assert s[..|a|] == a && s[|a| + 1..] == rest;
    SplitAtChar(s, c, |a|);
  }

  /** A base name with one dot has no extension. */
  lemma ExtOfTwoParts(a: string, b: string)
    requires '.' !in a && '.' !in b && '/' !in a && '/' !in b
    ensures Ext(a + "." + b) == ""
  {
    var s := a + "." + b;
    BaseOfPlainName(s);
    SplitCons(a, b, '.');
    SplitNoChar(b, '.');
  }

  /** A base name with two dots has its last two parts as extension. */
  lemma ExtOfThreeParts(a: string, b: string, c: string)
    requires '.' !in a && '.' !in b && '.' !in c && '/' !in a && '/' !in b && '/' !in c
    ensures Ext(a + "." + b + "." + c) == b + "." + c
  {
    var s := a + "." + b + "." + c;
    BaseOfPlainName(s);
    assert s == a + "." + (b + "." + c);
    SplitCons(a, b + "." + c, '.');
    SplitCons(b, c, '.');
    SplitNoChar(c, '.');
    var parts := Split(s, ".");
    assert parts == [a, b, c];
    LastTwoIs(parts);
  }

  /** From the table of the ext tests: a single extension gives "". */
  lemma ExtOfSingleExtension(name: string)
    requires name == "foo.test"
    ensures Ext(name) == ""
  {
    var a, b := "foo", "test";
    assert name == a + "." + b;
    ExtOfTwoParts(a, b);
  }

  /** From the table of the ext tests: the last two parts form the
      extension. */
  lemma ExtOfDoubleExtension(name: string)
    requires name == "foo.gql.test"
    ensures Ext(name) == "gql.test"
  {
    var a, b, c := "foo", "gql", "test";
    assert name == a + "." + b + "." + c;
    assert b + "." + c == "gql.test";
    ExtOfThreeParts(a, b, c);
  }
}
