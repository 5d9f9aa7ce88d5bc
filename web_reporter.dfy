/** internal/webui/reporter.go: the reporter behind the web UI. Files and
    their tests are shared objects; every change is pushed as a message to
    each registered listener channel. A channel send is modelled as a
    delivery appended to the cache's outbox. */
module WebReporter {
  import opened Wrappers

  /** A listener channel, by identity. */
  type ListenerId = nat

  /** What a message carries: the live File or Test object (Go sends the
      pointer), a file name, or the file map. */
  datatype Payload =
    | OfTest(test: Test)
    | OfFile(file: File)
    | OfName(name: string)
    | OfFiles(files: map<string, File>)

  datatype Message = Message(kind: string, data: Payload)

  /** One channel send. */
  datatype Delivery = Delivery(to: ListenerId, msg: Message)

  /** One send per registered listener, in registration order. */
  function Deliveries(ls: seq<ListenerId>, m: Message): (r: seq<Delivery>)
    ensures |r| == |ls|
    ensures forall i :: 0 <= i < |ls| ==> r[i] == Delivery(ls[i], m)
  {
    if ls == [] then [] else Deliveries(ls[..|ls| - 1], m) + [Delivery(ls[|ls| - 1], m)]
  }

  /** What one listener's channel has been sent, in order. */
  function Inbox(log: seq<Delivery>, l: ListenerId): seq<Message> {
    if log == [] then []
    else Inbox(log[..|log| - 1], l) + (if log[|log| - 1].to == l then [log[|log| - 1].msg] else [])
  }

  function Occurrences(ls: seq<ListenerId>, l: ListenerId): nat {
    if ls == [] then 0 else Occurrences(ls[..|ls| - 1], l) + (if ls[|ls| - 1] == l then 1 else 0)
  }

  function Repeat(m: Message, n: nat): (r: seq<Message>)
    ensures |r| == n && forall i :: 0 <= i < n ==> r[i] == m
  {
    if n == 0 then [] else Repeat(m, n - 1) + [m]
  }

  lemma {:induction false} InboxAppend(a: seq<Delivery>, b: seq<Delivery>, l: ListenerId)
    decreases |b|
    ensures Inbox(a + b, l) == Inbox(a, l) + Inbox(b, l)
  {
    if b == [] {
      assert a + b == a;
    } else {
      var n := |b| - 1;
      assert (a + b)[..|a + b| - 1] == a + b[..n];
      InboxAppend(a, b[..n], l);
    }
  }

  /** A broadcast reaches a listener once per registration of its channel,
      and a listener not registered not at all. */
  lemma {:induction false} BroadcastInbox(ls: seq<ListenerId>, m: Message, l: ListenerId)
    decreases |ls|
    ensures Inbox(Deliveries(ls, m), l) == Repeat(m, Occurrences(ls, l))
  {
    if ls != [] {
      var n := |ls| - 1;
      var d := Deliveries(ls, m);
      assert d[..n] == Deliveries(ls[..n], m);
      BroadcastInbox(ls[..n], m, l);
    }
  }

  /** slices.DeleteFunc(ls, e == l): every occurrence of l removed, the
      rest kept in order. */
  function Without(ls: seq<ListenerId>, l: ListenerId): (r: seq<ListenerId>)
    ensures l !in r
    ensures forall k :: k in r <==> k in ls && k != l
  {
    if ls == [] then []
    else Without(ls[..|ls| - 1], l) + (if ls[|ls| - 1] == l then [] else [ls[|ls| - 1]])
  }

  /** Removing a channel leaves every other channel's registrations as
      they were. */
  lemma {:induction false} WithoutKeepsOthers(ls: seq<ListenerId>, l: ListenerId, k: ListenerId)
    requires k != l
    decreases |ls|
    ensures Occurrences(Without(ls, l), k) == Occurrences(ls, k)
    ensures Occurrences(Without(ls, l), l) == 0
  {
    if ls != [] {
      var n := |ls| - 1;
      WithoutKeepsOthers(ls[..n], l, k);
      var w := Without(ls[..n], l);
      assert ls[..n] == ls[..|ls| - 1];
      if ls[n] != l {
        assert Without(ls, l) == w + [ls[n]];
        assert (w + [ls[n]])[..|w|] == w;
      } else {
        assert Without(ls, l) == w + [];
        assert w + [] == w;
      }
    }
  }

  /** Removing an absent channel changes nothing. */
  lemma {:induction false} WithoutAbsent(ls: seq<ListenerId>, l: ListenerId)
    requires l !in ls
    decreases |ls|
    ensures Without(ls, l) == ls
  {
    if ls != [] {
      var n := |ls| - 1;
      assert l !in ls[..n];
      WithoutAbsent(ls[..n], l);
      assert ls[..n] + [ls[n]] == ls;
    }
  }

  /** Adding a new channel and removing it again restores the list. */
  lemma AddThenRemove(ls: seq<ListenerId>, l: ListenerId)
    requires l !in ls
    ensures Without(ls + [l], l) == ls
  {
    assert (ls + [l])[..|ls|] == ls;
    WithoutAbsent(ls, l);
  }

  /** fmt.Sprintf on a format and its arguments; fmt is not part of this
      model. */
  type Sprintf = (string, seq<string>) -> string

  /** A test block the callback of RunFile runs, or an error it reports
      on the file-level reporter (which has no test). */
  datatype Step =
    | FileError(format: string, args: seq<string>)
    | TestBlock(runner: string, name: string, errors: seq<string>, elapsed: nat)

  /** The test blocks of a script, in order. */
  function Blocks(steps: seq<Step>): (r: seq<Step>)
    ensures forall i :: 0 <= i < |r| ==> r[i].TestBlock?
  {
    if steps == [] then []
    else Blocks(steps[..|steps| - 1]) + (if steps[|steps| - 1].TestBlock? then [steps[|steps| - 1]] else [])
  }

  /** The file-level errors of a script, which are printed (formatted,
      with a newline), not sent. */
  function Printed(steps: seq<Step>, sprintf: Sprintf): seq<string> {
    if steps == [] then []
    else
      var s := steps[|steps| - 1];
      Printed(steps[..|steps| - 1], sprintf) + (if s.FileError? then [sprintf(s.format, s.args) + "\n"] else [])
  }

  /** The sends of one test run: start_test, one error per reported
      error, end_test, all carrying the test. */
  function TestSends(ls: seq<ListenerId>, t: Test, errors: nat): seq<Delivery> {
    Deliveries(ls, Message("start_test", OfTest(t))) + ErrorSends(ls, t, errors) + Deliveries(ls, Message("end_test", OfTest(t)))
  }

  function ErrorSends(ls: seq<ListenerId>, t: Test, n: nat): seq<Delivery> {
    if n == 0 then [] else ErrorSends(ls, t, n - 1) + Deliveries(ls, Message("error", OfTest(t)))
  }

  /** The sends of a script whose test blocks ran as `tests`. */
  function ScriptSends(ls: seq<ListenerId>, steps: seq<Step>, tests: seq<Test>): seq<Delivery>
    requires |tests| == |Blocks(steps)|
  {
    if steps == [] then []
    else
      var n := |steps| - 1;
      if steps[n].FileError? then ScriptSends(ls, steps[..n], tests)
      else ScriptSends(ls, steps[..n], tests[..|tests| - 1]) + TestSends(ls, tests[|tests| - 1], |steps[n].errors|)
  }

  lemma Assoc<T>(a: seq<T>, b: seq<T>, c: seq<T>)
    ensures a + b + c == a + (b + c)
  {
  }

  /** One more step: a file-level error adds no test block and no send,
      a test block adds itself to the blocks. */
  lemma StepSnoc(ls: seq<ListenerId>, steps: seq<Step>, i: nat, tests: seq<Test>)
    requires i < |steps| && |tests| == |Blocks(steps[..i])|
    ensures steps[i].FileError? ==>
      && Blocks(steps[..i + 1]) == Blocks(steps[..i])
      && ScriptSends(ls, steps[..i + 1], tests) == ScriptSends(ls, steps[..i], tests)
    ensures steps[i].TestBlock? ==> Blocks(steps[..i + 1]) == Blocks(steps[..i]) + [steps[i]]
  {
    assert steps[..i + 1][..i] == steps[..i];
  }

  /** One more step: a file-level error prints its formatted message and
      a newline, a test block prints nothing. */
  lemma PrintedSnoc(steps: seq<Step>, i: nat, sprintf: Sprintf)
    requires i < |steps|
    ensures steps[i].FileError? ==>
      Printed(steps[..i + 1], sprintf) == Printed(steps[..i], sprintf) + [sprintf(steps[i].format, steps[i].args) + "\n"]
    ensures steps[i].TestBlock? ==> Printed(steps[..i + 1], sprintf) == Printed(steps[..i], sprintf)
  {
    assert steps[..i + 1][..i] == steps[..i];
  }

  /** One more step that is a test block, run as t. */
  lemma TestSnoc(ls: seq<ListenerId>, steps: seq<Step>, i: nat, tests: seq<Test>, t: Test)
    requires i < |steps| && steps[i].TestBlock? && |tests| == |Blocks(steps[..i])|
    ensures |tests + [t]| == |Blocks(steps[..i + 1])|
    ensures ScriptSends(ls, steps[..i + 1], tests + [t]) == ScriptSends(ls, steps[..i], tests) + TestSends(ls, t, |steps[i].errors|)
  {
    StepSnoc(ls, steps, i, tests);
    assert steps[..i + 1][..i] == steps[..i];
    assert (tests + [t])[..|tests|] == tests;
  }

  /** A listener sees each test's start_test before its errors and its
      end_test after them. */
  lemma TestInbox(ls: seq<ListenerId>, t: Test, errors: nat, l: ListenerId)
    requires l in ls
    ensures var inbox := Inbox(TestSends(ls, t, errors), l);
      && |inbox| >= 2
      && inbox[0] == Message("start_test", OfTest(t))
      && inbox[|inbox| - 1] == Message("end_test", OfTest(t))
  {
    var s := Deliveries(ls, Message("start_test", OfTest(t)));
    var e := ErrorSends(ls, t, errors);
    var d := Deliveries(ls, Message("end_test", OfTest(t)));
    InboxAppend(s + e, d, l);
    InboxAppend(s, e, l);
    BroadcastInbox(ls, Message("start_test", OfTest(t)), l);
    BroadcastInbox(ls, Message("end_test", OfTest(t)), l);
    OccursPositive(ls, l);
  }

  lemma {:induction false} OccursPositive(ls: seq<ListenerId>, l: ListenerId)
    requires l in ls
    decreases |ls|
    ensures Occurrences(ls, l) > 0
  {
    var n := |ls| - 1;
    if ls[n] != l {
      assert l in ls[..n] by {
        var i :| 0 <= i < |ls| && ls[i] == l;
        assert ls[..n][i] == l;
      }
      OccursPositive(ls[..n], l);
    }
  }

  /** Test t is the run of test block b in the file named `filename`. */
  ghost predicate Ran(t: Test, b: Step, filename: string)
    reads t
  {
    && b.TestBlock? && t.filename == filename && t.name == b.name && t.runner == b.runner
    && t.errors == b.errors && t.duration == b.elapsed
  }

  ghost predicate AllRan(ts: seq<Test>, bs: seq<Step>, filename: string)
    reads ts
  {
    |ts| == |bs| && forall j :: 0 <= j < |ts| ==> Ran(ts[j], bs[j], filename)
  }

  lemma AllRanSnoc(ts: seq<Test>, bs: seq<Step>, t: Test, b: Step, filename: string)
    requires AllRan(ts, bs, filename) && Ran(t, b, filename)
    ensures AllRan(ts + [t], bs + [b], filename)
  {
  }

  /** RunSteps' invariant carried over one more test block, run as t. */
  lemma RanStep(steps: seq<Step>, i: nat, added: seq<Test>, t: Test, filename: string,
                ls: seq<ListenerId>, outbox0: seq<Delivery>, outbox: seq<Delivery>)
    requires i < |steps| && steps[i].TestBlock?
    requires AllRan(added, Blocks(steps[..i]), filename) && Ran(t, steps[i], filename)
    requires outbox == outbox0 + ScriptSends(ls, steps[..i], added) + TestSends(ls, t, |steps[i].errors|)
    ensures AllRan(added + [t], Blocks(steps[..i + 1]), filename)
    ensures outbox == outbox0 + ScriptSends(ls, steps[..i + 1], added + [t])
  {
    StepSnoc(ls, steps, i, added);
    TestSnoc(ls, steps, i, added, t);
    AllRanSnoc(added, Blocks(steps[..i]), t, steps[i], filename);
  }

  class Test {
    const filename: string
    const name: string
    const runner: string
    /** The reported errors; Go's nil slice when empty. */
    var errors: seq<string>
    var duration: nat
    const cache: Cache

    constructor (filename: string, name: string, runner: string, cache: Cache)
      ensures this.filename == filename && this.name == name && this.runner == runner && this.cache == cache
      ensures errors == [] && duration == 0
    {
      this.filename, this.name, this.runner, this.cache := filename, name, runner, cache;
      errors, duration := [], 0;
    }

    /** Test.Start: errors cleared, "start_test" broadcast. */
    method Start()
      modifies this, cache
      ensures errors == [] && duration == old(duration)
      ensures cache.outbox == old(cache.outbox) + Deliveries(cache.listeners, Message("start_test", OfTest(this)))
      ensures cache.files == old(cache.files) && cache.listeners == old(cache.listeners)
    {
      errors := [];
      cache.Broadcast(Message("start_test", OfTest(this)));
    }

    /** Test.End, with `elapsed` the time since Start. */
    method End(elapsed: nat)
      modifies this, cache
      ensures errors == old(errors) && duration == elapsed
      ensures cache.outbox == old(cache.outbox) + Deliveries(cache.listeners, Message("end_test", OfTest(this)))
      ensures cache.files == old(cache.files) && cache.listeners == old(cache.listeners)
    {
      duration := elapsed;
      cache.Broadcast(Message("end_test", OfTest(this)));
    }

    /** Test.AddError: exactly one error appended, holding the message
        alone (the format arguments are dropped), then "error" broadcast. */
    method AddError<A>(message: string, args: seq<A>)
      modifies this, cache
      ensures errors == old(errors) + [message] && duration == old(duration)
      ensures cache.outbox == old(cache.outbox) + Deliveries(cache.listeners, Message("error", OfTest(this)))
      ensures cache.files == old(cache.files) && cache.listeners == old(cache.listeners)
    {
      errors := errors + [message];
      cache.Broadcast(Message("error", OfTest(this)));
    }
  }

  class File {
    /** The path relative to the cache's directory. */
    const name: string
    /** The tests of the current run; Go's nil slice when empty. */
    var subTests: seq<Test>
    var duration: nat
    const cache: Cache

    constructor (name: string, cache: Cache)
      ensures this.name == name && this.cache == cache && subTests == [] && duration == 0
    {
      this.name, this.cache := name, cache;
      subTests, duration := [], 0;
    }

    /** File.Start: the tests of the previous run dropped, "start"
        broadcast. */
    method Start()
      modifies this, cache
      ensures subTests == [] && duration == old(duration)
      ensures cache.outbox == old(cache.outbox) + Deliveries(cache.listeners, Message("start", OfFile(this)))
      ensures cache.files == old(cache.files) && cache.listeners == old(cache.listeners)
    {
      subTests := [];
      cache.Broadcast(Message("start", OfFile(this)));
    }

    /** File.End, with `elapsed` the time since Start. */
    method End(elapsed: nat)
      modifies this, cache
      ensures subTests == old(subTests) && duration == elapsed
      ensures cache.outbox == old(cache.outbox) + Deliveries(cache.listeners, Message("end", OfFile(this)))
      ensures cache.files == old(cache.files) && cache.listeners == old(cache.listeners)
    {
      duration := elapsed;
      cache.Broadcast(Message("end", OfFile(this)));
    }

    /** File.AddTest: a new test filed under this file's name, appended
        without a broadcast. */
    method AddTest(name: string, runner: string) returns (t: Test)
      modifies this
      ensures fresh(t) && t.filename == this.name && t.name == name && t.runner == runner
      ensures t.cache == cache && t.errors == [] && t.duration == 0
      ensures subTests == old(subTests) + [t] && duration == old(duration)
    {
      t := new Test(this.name, name, runner, cache);
      subTests := subTests + [t];
    }
  }

  class Cache {
    const dirPrefix: string
    /** filepath.Rel(dirPrefix, ·), its error dropped. */
    const rel: string -> string
    /** The files, by full path. */
    var files: map<string, File>
    var listeners: seq<ListenerId>
    var outbox: seq<Delivery>

    /** Every file broadcasts through this cache. */
    predicate Valid()
      reads this
    {
      forall k :: k in files ==> files[k].cache == this
    }

    constructor (dirPrefix: string, rel: string -> string)
      ensures this.dirPrefix == dirPrefix && this.rel == rel
      ensures Valid() && files == map[] && listeners == [] && outbox == []
    {
      this.dirPrefix, this.rel := dirPrefix, rel;
      files, listeners, outbox := map[], [], [];
    }

    /** sseCache.Broadcast: the message sent to every listener, in
        registration order. */
    method Broadcast(m: Message)
      modifies this
      ensures outbox == old(outbox) + Deliveries(listeners, m)
      ensures files == old(files) && listeners == old(listeners)
    {
      var i := 0;
      while i < |listeners|
        invariant 0 <= i <= |listeners|
        invariant outbox == old(outbox) + Deliveries(listeners[..i], m)
        invariant files == old(files) && listeners == old(listeners)
      {
        assert listeners[..i + 1][..i] == listeners[..i];
        outbox := outbox + [Delivery(listeners[i], m)];
        i := i + 1;
      }
      assert listeners[..i] == listeners;
    }

    /** sseCache.RemoveFile: the entry deleted, then "remove" broadcast
        with the name. */
    method RemoveFile(name: string)
      requires Valid()
      modifies this
      ensures Valid() && files == old(files) - {name} && listeners == old(listeners)
      ensures outbox == old(outbox) + Deliveries(listeners, Message("remove", OfName(name)))
    {
      files := files - {name};
      Broadcast(Message("remove", OfName(name)));
    }

    /** sseCache.AddListener: the new channel first gets "init" with the
        current file map, then joins the list. */
    method AddListener(l: ListenerId)
      modifies this
      ensures listeners == old(listeners) + [l] && files == old(files)
      ensures outbox == old(outbox) + [Delivery(l, Message("init", OfFiles(files)))]
    {
      outbox := outbox + [Delivery(l, Message("init", OfFiles(files)))];
      listeners := listeners + [l];
    }

    /** sseCache.RemoveListener: every registration of the channel
        removed. */
    method RemoveListener(l: ListenerId)
      modifies this
      ensures listeners == Without(old(listeners), l)
      ensures files == old(files) && outbox == old(outbox)
    {
      var kept: seq<ListenerId> := [];
      var i := 0;
      while i < |listeners|
        invariant 0 <= i <= |listeners|
        invariant kept == Without(listeners[..i], l)
      {
        assert listeners[..i + 1][..i] == listeners[..i];
        if listeners[i] != l {
          kept := kept + [listeners[i]];
        }
        i := i + 1;
      }
      assert listeners[..i] == listeners;
      listeners := kept;
    }

    /** sseCache.AddFile: the known File for a known name; otherwise a new
        File, named by its path relative to dirPrefix and filed under the
        full name. */
    method AddFile(name: string) returns (f: File)
      requires Valid()
      modifies this
      ensures Valid() && listeners == old(listeners) && outbox == old(outbox)
      ensures name in old(files) ==> f == old(files)[name] && files == old(files)
      ensures name !in old(files) ==>
        && fresh(f) && f.name == rel(name) && f.subTests == [] && f.duration == 0
        && files == old(files)[name := f]
      ensures f.cache == this && name in files && files[name] == f
    {
      if name in files {
        return files[name];
      }
      f := new File(rel(name), this);
      files := files[name := f];
    }
  }

  class SSEReporter {
    const cache: Cache?
    const file: File?
    const test: Test?

    /** NewSSEReporter: a fresh cache over `dir`. */
    constructor (dir: string, rel: string -> string)
      ensures cache != null && fresh(cache) && cache.dirPrefix == dir && cache.rel == rel
      ensures cache.Valid() && cache.files == map[] && cache.listeners == [] && cache.outbox == []
      ensures file == null && test == null
    {
      cache := new Cache(dir, rel);
      file, test := null, null;
    }

    /** The reporter handed to a callback: no cache of its own. */
    constructor Child(file: File?, test: Test?)
      ensures cache == null && this.file == file && this.test == test
    {
      cache := null;
      this.file, this.test := file, test;
    }

    /** Error(msg, args...): recorded on the current test, without its
        arguments; on a reporter without a test, fmt.Printf(msg, args...)
        and a newline are printed instead, and returned here. `sprintf`
        is fmt's formatting, which is not part of this model. */
    method Error<A>(message: string, args: seq<A>, sprintf: (string, seq<A>) -> string)
      returns (printed: Option<string>)
      modifies if test != null then {test, test.cache} else {}
      ensures test == null ==> printed == Some(sprintf(message, args) + "\n")
      ensures test != null ==> printed == None && test.errors == old(test.errors) + [message]
      ensures test != null ==> test.cache.outbox == old(test.cache.outbox) + Deliveries(test.cache.listeners, Message("error", OfTest(test)))
      ensures test != null ==> test.cache.files == old(test.cache.files) && test.cache.listeners == old(test.cache.listeners)
      ensures test != null ==> test.duration == old(test.duration)
    {
      if test == null {
        return Some(sprintf(message, args) + "\n");
      }
      test.AddError(message, args);
      return None;
    }

    /** RunTest on a reporter bound to a file: the test added and started,
        the block's errors reported on it, then the test ended. */
    method RunTest(runner: string, name: string, errors: seq<string>, elapsed: nat) returns (t: Test)
      requires file != null
      modifies file, file.cache
      ensures fresh(t) && t.filename == file.name && t.name == name && t.runner == runner && t.cache == file.cache
      ensures t.errors == errors && t.duration == elapsed
      ensures file.subTests == old(file.subTests) + [t] && file.duration == old(file.duration)
      ensures file.cache.outbox == old(file.cache.outbox) + TestSends(file.cache.listeners, t, |errors|)
      ensures file.cache.files == old(file.cache.files) && file.cache.listeners == old(file.cache.listeners)
    {
      t := file.AddTest(name, runner);
      ghost var outbox0 := file.cache.outbox;
      t.Start();
      ghost var started := file.cache.outbox;
      var child := new SSEReporter.Child(file, t);
      child.RunBlock(errors);
      ghost var reported := file.cache.outbox;
      t.End(elapsed);
      ghost var ls := file.cache.listeners;
      ghost var s := Deliveries(ls, Message("start_test", OfTest(t)));
      ghost var e := ErrorSends(ls, t, |errors|);
      ghost var d := Deliveries(ls, Message("end_test", OfTest(t)));
      Assoc(outbox0, s, e);
      Assoc(outbox0, s + e, d);
    }

    /** The callback of a test: its errors reported, in order, on the
        test's reporter. */
    method RunBlock(errors: seq<string>)
      requires test != null
      modifies test, test.cache
      ensures test.errors == old(test.errors) + errors && test.duration == old(test.duration)
      ensures test.cache.outbox == old(test.cache.outbox) + ErrorSends(test.cache.listeners, test, |errors|)
      ensures test.cache.files == old(test.cache.files) && test.cache.listeners == old(test.cache.listeners)
    {
      var i := 0;
      while i < |errors|
        invariant 0 <= i <= |errors|
        invariant test.errors == old(test.errors) + errors[..i] && test.duration == old(test.duration)
        invariant test.cache.outbox == old(test.cache.outbox) + ErrorSends(test.cache.listeners, test, i)
        invariant test.cache.files == old(test.cache.files) && test.cache.listeners == old(test.cache.listeners)
      {
        // With a test the format is stored as it is, never applied.
        var _ := Error(errors[i], [], (format: string, args: seq<string>) => format);
        assert errors[..i + 1] == errors[..i] + [errors[i]];
        i := i + 1;
      }
      assert errors[..i] == errors;
    }

    /** RunFile: the file added and started, the callback's steps run on
        a reporter bound to it, then the file ended. */
    method RunFile(filename: string, steps: seq<Step>, elapsed: nat, sprintf: Sprintf) returns (f: File, printed: seq<string>)
      requires cache != null && cache.Valid()
      modifies cache, cache.files.Values
      ensures cache.Valid() && cache.listeners == old(cache.listeners)
      ensures filename in old(cache.files) ==> f == old(cache.files)[filename] && cache.files == old(cache.files)
      ensures filename !in old(cache.files) ==> fresh(f) && f.name == cache.rel(filename) && cache.files == old(cache.files)[filename := f]
      ensures f.duration == elapsed && printed == Printed(steps, sprintf)
      ensures AllRan(f.subTests, Blocks(steps), f.name)
      ensures cache.outbox == old(cache.outbox)
        + Deliveries(cache.listeners, Message("start", OfFile(f)))
        + ScriptSends(cache.listeners, steps, f.subTests)
        + Deliveries(cache.listeners, Message("end", OfFile(f)))
    {
      f := cache.AddFile(filename);
      f.Start();
      var child := new SSEReporter.Child(f, null);
      printed := child.RunSteps(steps, sprintf);
      assert f.subTests[0..] == f.subTests;
      f.End(elapsed);
    }

    /** The steps of a RunFile callback on the file-level reporter. */
    method RunSteps(steps: seq<Step>, sprintf: Sprintf) returns (printed: seq<string>)
      requires file != null && test == null
      modifies file, file.cache
      ensures printed == Printed(steps, sprintf) && file.duration == old(file.duration)
      ensures file.cache.files == old(file.cache.files) && file.cache.listeners == old(file.cache.listeners)
      ensures |file.subTests| >= |old(file.subTests)| && file.subTests[..|old(file.subTests)|] == old(file.subTests)
      ensures AllRan(file.subTests[|old(file.subTests)|..], Blocks(steps), file.name)
      ensures file.cache.outbox == old(file.cache.outbox)
        + ScriptSends(file.cache.listeners, steps, file.subTests[|old(file.subTests)|..])
    {
      printed := [];
      ghost var added: seq<Test> := [];
      var i := 0;
      while i < |steps|
        invariant 0 <= i <= |steps|
        invariant printed == Printed(steps[..i], sprintf) && file.duration == old(file.duration)
        invariant file.cache.files == old(file.cache.files) && file.cache.listeners == old(file.cache.listeners)
        invariant file.subTests == old(file.subTests) + added
        invariant AllRan(added, Blocks(steps[..i]), file.name)
        invariant file.cache.outbox == old(file.cache.outbox) + ScriptSends(file.cache.listeners, steps[..i], added)
      {
        var p;
        p, added := Advance(steps, i, printed, added, old(file.subTests), old(file.cache.outbox), sprintf);
        printed := p;
        i := i + 1;
      }
      assert steps[..i] == steps;
      assert file.subTests[|old(file.subTests)|..] == added;
    }

    /** RunStep on step i, carrying RunSteps' loop invariant from i to
        i + 1. */
    method Advance(steps: seq<Step>, i: nat, printed: seq<string>, ghost added: seq<Test>,
                   ghost tests0: seq<Test>, ghost outbox0: seq<Delivery>, sprintf: Sprintf)
      returns (printed': seq<string>, ghost added': seq<Test>)
      requires file != null && test == null && i < |steps|
      requires printed == Printed(steps[..i], sprintf)
      requires file.subTests == tests0 + added
      requires AllRan(added, Blocks(steps[..i]), file.name)
      requires file.cache.outbox == outbox0 + ScriptSends(file.cache.listeners, steps[..i], added)
      modifies file, file.cache
      ensures printed' == Printed(steps[..i + 1], sprintf) && file.duration == old(file.duration)
      ensures file.cache.files == old(file.cache.files) && file.cache.listeners == old(file.cache.listeners)
      ensures file.subTests == tests0 + added'
      ensures AllRan(added', Blocks(steps[..i + 1]), file.name)
      ensures file.cache.outbox == outbox0 + ScriptSends(file.cache.listeners, steps[..i + 1], added')
    {
      if steps[i].FileError? {
        printed', added' := AdvanceError(steps, i, printed, added, tests0, outbox0, sprintf);
      } else {
        printed', added' := AdvanceTest(steps, i, printed, added, tests0, outbox0, sprintf);
      }
    }

    method AdvanceError(steps: seq<Step>, i: nat, printed: seq<string>, ghost added: seq<Test>,
                   ghost tests0: seq<Test>, ghost outbox0: seq<Delivery>, sprintf: Sprintf)
      returns (printed': seq<string>, ghost added': seq<Test>)
      requires file != null && test == null && i < |steps| && steps[i].FileError?
      requires printed == Printed(steps[..i], sprintf)
      requires file.subTests == tests0 + added
      requires AllRan(added, Blocks(steps[..i]), file.name)
      requires file.cache.outbox == outbox0 + ScriptSends(file.cache.listeners, steps[..i], added)
      modifies file, file.cache
      ensures printed' == Printed(steps[..i + 1], sprintf) && file.duration == old(file.duration)
      ensures file.cache.files == old(file.cache.files) && file.cache.listeners == old(file.cache.listeners)
      ensures file.subTests == tests0 + added'
      ensures AllRan(added', Blocks(steps[..i + 1]), file.name)
      ensures file.cache.outbox == outbox0 + ScriptSends(file.cache.listeners, steps[..i + 1], added')
    {
      StepSnoc(file.cache.listeners, steps, i, added);
      PrintedSnoc(steps, i, sprintf);
      var p := RunStep(steps[i], sprintf);
      printed' := printed + [p.value];
      added' := added;
    }

    method AdvanceTest(steps: seq<Step>, i: nat, printed: seq<string>, ghost added: seq<Test>,
                   ghost tests0: seq<Test>, ghost outbox0: seq<Delivery>, sprintf: Sprintf)
      returns (printed': seq<string>, ghost added': seq<Test>)
      requires file != null && test == null && i < |steps| && steps[i].TestBlock?
      requires printed == Printed(steps[..i], sprintf)
      requires file.subTests == tests0 + added
      requires AllRan(added, Blocks(steps[..i]), file.name)
      requires file.cache.outbox == outbox0 + ScriptSends(file.cache.listeners, steps[..i], added)
      modifies file, file.cache
      ensures printed' == Printed(steps[..i + 1], sprintf) && file.duration == old(file.duration)
      ensures file.cache.files == old(file.cache.files) && file.cache.listeners == old(file.cache.listeners)
      ensures file.subTests == tests0 + added'
      ensures AllRan(added', Blocks(steps[..i + 1]), file.name)
      ensures file.cache.outbox == outbox0 + ScriptSends(file.cache.listeners, steps[..i + 1], added')
    {
      StepSnoc(file.cache.listeners, steps, i, added);
      PrintedSnoc(steps, i, sprintf);
      var t := RunTest(steps[i].runner, steps[i].name, steps[i].errors, steps[i].elapsed);
      RanStep(steps, i, added, t, file.name, file.cache.listeners, outbox0, file.cache.outbox);
      printed' := printed;
      added' := added + [t];
    }

    /** One step of a RunFile callback: a printed error, or a test run. */
    method RunStep(s: Step, sprintf: Sprintf) returns (printed: Option<string>)
      requires file != null && test == null
      modifies file, file.cache
      ensures file.duration == old(file.duration)
      ensures file.cache.files == old(file.cache.files) && file.cache.listeners == old(file.cache.listeners)
      ensures s.FileError? ==> printed == Some(sprintf(s.format, s.args) + "\n") && file.subTests == old(file.subTests)
      ensures s.FileError? ==> file.cache.outbox == old(file.cache.outbox)
      ensures s.TestBlock? ==> printed == None && |file.subTests| == |old(file.subTests)| + 1
      ensures s.TestBlock? ==>
        var t := file.subTests[|file.subTests| - 1];
        && file.subTests == old(file.subTests) + [t] && fresh(t) && Ran(t, s, file.name)
        && file.cache.outbox == old(file.cache.outbox) + TestSends(file.cache.listeners, t, |s.errors|)
    {
      if s.FileError? {
        printed := Error(s.format, s.args, sprintf);
      } else {
        var t := RunTest(s.runner, s.name, s.errors, s.elapsed);
        printed := None;
      }
    }
  }
}
