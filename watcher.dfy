/** The web UI's picture of a run (internal/webui/ui/src/lib/watcher.svelte.ts):
    the status it derives for a test and for a file, and the reducer that
    keeps its list of files up to date from the server's events. */
module Watcher {
  import opened Wrappers
  import opened Strs

  // -----------------------------------------------------------------------
  // Statuses

  datatype Status = Running | Done | Error | Skip

  /** A test as the UI holds it; `errors` is None for JSON null. */
  datatype SubTest = SubTest(name: string, duration: int, errors: Option<seq<string>>)

  /** SubTest.status: running while the duration is 0, whatever the
      errors; then failed as soon as an error list is present, an empty one
      included (an empty array is truthy); otherwise done. */
  function SubTestStatus(t: SubTest): (r: Status)
    ensures r == Running <==> t.duration == 0
    ensures r == Error <==> t.duration != 0 && t.errors.Some?
    ensures r == Done <==> t.duration != 0 && t.errors.None?
  {
    if t.duration == 0 then Running
    else if t.errors.Some? then Error
    else Done
  }

  /** `subTests.some(t => t.status === st)`, scanning from the front. */
  function AnyWith(ts: seq<SubTest>, st: Status): bool {
    ts != [] && (SubTestStatus(ts[0]) == st || AnyWith(ts[1..], st))
  }

  lemma {:induction false} AnyWithExists(ts: seq<SubTest>, st: Status)
    ensures AnyWith(ts, st) <==> exists i :: 0 <= i < |ts| && SubTestStatus(ts[i]) == st
  {
    if ts != [] {
      AnyWithExists(ts[1..], st);
      if AnyWith(ts[1..], st) {
        var i :| 0 <= i < |ts[1..]| && SubTestStatus(ts[1..][i]) == st;
        assert SubTestStatus(ts[i + 1]) == st;
      }
      if exists i :: 0 <= i < |ts| && SubTestStatus(ts[i]) == st {
        var i :| 0 <= i < |ts| && SubTestStatus(ts[i]) == st;
        if i > 0 {
          assert SubTestStatus(ts[1..][i - 1]) == st;
        }
      }
    }
  }

  /** File.status: a failed test wins over a running one. */
  function FileStatus(ts: seq<SubTest>): (st: Status)
    ensures st != Skip
    ensures ts == [] ==> st == Done
  {
    if AnyWith(ts, Error) then Error
    else if AnyWith(ts, Running) then Running
    else Done
  }

  /** A file has failed iff one of its tests has; it is running iff none has
      failed and one is running; it is done iff every test is done, which
      includes a file without tests; it is never skipped. */
  lemma FileStatusCases(ts: seq<SubTest>)
    ensures FileStatus(ts) == Error <==> exists i :: 0 <= i < |ts| && SubTestStatus(ts[i]) == Error
    ensures FileStatus(ts) == Running <==>
      (forall i :: 0 <= i < |ts| ==> SubTestStatus(ts[i]) != Error)
      && (exists i :: 0 <= i < |ts| && SubTestStatus(ts[i]) == Running)
    ensures FileStatus(ts) == Done <==> forall i :: 0 <= i < |ts| ==> SubTestStatus(ts[i]) == Done
    ensures FileStatus(ts) != Skip
  {
    AnyWithExists(ts, Error);
    AnyWithExists(ts, Running);
  }

  // -----------------------------------------------------------------------
  // Events

  /** A test as the server sends it. */
  datatype EventSubTest = EventSubTest(filename: string, name: string, runner: string,
                                       errors: Option<seq<string>>, duration: int)

  /** A file as the server sends it; `subTests` is None for JSON null. */
  datatype EventFile = EventFile(name: string, duration: int, subTests: Option<seq<EventSubTest>>)

  /** The events by their `type`. An "init" carries the files of its
      record in the order Object.values lists them; start_test, end_test,
      error and any other type are Other. */
  datatype Event =
    | Init(values: seq<EventFile>)
    | Start(file: EventFile)
    | End(file: EventFile)
    | Other(kind: string)

  /** createSubTest: name, duration and errors kept; file name and runner
      dropped. */
  function CreateSubTest(e: EventSubTest): SubTest {
    SubTest(e.name, e.duration, e.errors)
  }

  /** `subTests?.map(createSubTest) || []`. */
  function SubTestsOf(o: Option<seq<EventSubTest>>): seq<SubTest> {
    match o
    case None => []
    case Some(s) => seq(|s|, i requires 0 <= i < |s| => CreateSubTest(s[i]))
  }

  /** The statuses the UI shows for an event's tests are those the tests
      had on the server: nothing is lost in the copy. */
  lemma SubTestsOfStatus(s: seq<EventSubTest>)
    ensures |SubTestsOf(Some(s))| == |s|
    ensures forall i :: 0 <= i < |s| ==>
      && SubTestsOf(Some(s))[i].name == s[i].name
      && SubTestStatus(SubTestsOf(Some(s))[i]) ==
           (if s[i].duration == 0 then Running else if s[i].errors.Some? then Error else Done)
  {
  }

  // -----------------------------------------------------------------------
  // The reducer on values

  /** What a File object holds. */
  datatype FileView = FileView(name: string, duration: int, subTests: seq<SubTest>)

  /** The file createFile builds from an event. */
  function View(e: EventFile): FileView {
    FileView(e.name, e.duration, SubTestsOf(e.subTests))
  }

  function Views(es: seq<EventFile>): (r: seq<FileView>)
    ensures |r| == |es| && forall i :: 0 <= i < |es| ==> r[i] == View(es[i])
  {
    seq(|es|, i requires 0 <= i < |es| => View(es[i]))
  }

  function ViewName(v: FileView): string {
    v.name
  }

  function ViewNames(vs: seq<FileView>): (r: seq<string>)
    ensures |r| == |vs| && forall i :: 0 <= i < |vs| ==> r[i] == vs[i].name
  {
    seq(|vs|, i requires 0 <= i < |vs| => vs[i].name)
  }

  /** Array.prototype.find by name: the first position holding `name`. */
  function FirstIndex(names: seq<string>, name: string): (r: Option<nat>)
    ensures r.Some? ==> r.value < |names| && names[r.value] == name
    ensures r.Some? ==> forall j :: 0 <= j < r.value ==> names[j] != name
    ensures r.None? <==> name !in names
  {
    if names == [] then None
    else if names[0] == name then Some(0)
    else
      match FirstIndex(names[1..], name)
      case Some(k) => Some(k + 1)
      case None => None
  }

  /** A start or end event: the first file of that name updated, or the
      event's file appended when there is none. */
  function Upsert(vs: seq<FileView>, e: EventFile): (r: seq<FileView>)
    ensures |r| == |vs| || |r| == |vs| + 1
    ensures View(e) in r
  {
    match FirstIndex(ViewNames(vs), e.name)
    case Some(k) =>
      var r := vs[k := View(e)];
      assert r[k] == View(e);
      r
    case None => vs + [View(e)]
  }

  /** The reducer: an init replaces the list by its files in name order;
      a start or an end upserts its file; every other event is ignored. */
  function Reduce(vs: seq<FileView>, e: Event): (r: seq<FileView>)
    ensures e.Other? ==> r == vs
    ensures (e.Start? || e.End?) ==> |vs| <= |r| <= |vs| + 1
    ensures e.Init? ==> |r| == |e.values|
  {
    match e
    case Init(values) =>
      var r := SortBy(Views(values), ViewName);
      assert |multiset(r)| == |multiset(Views(values))|;
      r
    case Start(f) => Upsert(vs, f)
    case End(f) => Upsert(vs, f)
    case Other(_) => vs
  }

  /** After an upsert, the first file of the event's name is the event's
      file, every other file is as it was, and the list grew by one iff no
      file had that name. */
  lemma UpsertPlaces(vs: seq<FileView>, e: EventFile)
    ensures var r := Upsert(vs, e);
      var k := FirstIndex(ViewNames(r), e.name);
      && k.Some? && r[k.value] == View(e)
      && (forall j :: 0 <= j < |vs| && j != k.value ==> r[j] == vs[j])
      && (e.name in ViewNames(vs) ==> |r| == |vs|)
      && (e.name !in ViewNames(vs) ==> |r| == |vs| + 1 && k.value == |vs|)
  {
    var r := Upsert(vs, e);
    match FirstIndex(ViewNames(vs), e.name)
    case Some(k) =>
      assert ViewNames(r) == ViewNames(vs);
    case None =>
      assert ViewNames(r) == ViewNames(vs) + [e.name];
      assert forall j :: 0 <= j < |vs| ==> ViewNames(r)[j] == ViewNames(vs)[j] != e.name;
      assert ViewNames(r)[|vs|] == e.name;
  }

  /** Repeating a start or an end event changes nothing more. */
  lemma UpsertIdempotent(vs: seq<FileView>, e: EventFile)
    ensures Upsert(Upsert(vs, e), e) == Upsert(vs, e)
  {
    UpsertPlaces(vs, e);
  }

  predicate UniqueNames(vs: seq<FileView>) {
    forall i, j :: 0 <= i < j < |vs| ==> vs[i].name != vs[j].name
  }

  /** Upserts never introduce a second file of the same name. */
  lemma UpsertKeepsNamesUnique(vs: seq<FileView>, e: EventFile)
    requires UniqueNames(vs)
    ensures UniqueNames(Upsert(vs, e))
  {
    var r := Upsert(vs, e);
    match FirstIndex(ViewNames(vs), e.name)
    case Some(k) =>
      assert forall j :: 0 <= j < |r| ==> r[j].name == vs[j].name;
    case None =>
      assert forall j :: 0 <= j < |vs| ==> vs[j].name == ViewNames(vs)[j];
  }

  /** An init event replaces the list, whatever it held, by its own files
      in name order. */
  lemma InitSorted(vs: seq<FileView>, values: seq<EventFile>)
    ensures SortedBy(Reduce(vs, Init(values)), ViewName)
    ensures multiset(Reduce(vs, Init(values))) == multiset(Views(values))
  {
    SortBySorted(Views(values), ViewName);
  }

  // -----------------------------------------------------------------------
  // Sorting by name

  /** The order `(a, b) => a.name.localeCompare(b.name)` asks for. */
  predicate SortedBy<T>(s: seq<T>, key: T -> string) {
    forall i, j :: 0 <= i < j < |s| ==> !Less(key(s[j]), key(s[i]))
  }

  /** Insertion before the first element that does not come before x. */
  function InsertBy<T>(x: T, s: seq<T>, key: T -> string): (r: seq<T>)
    ensures multiset(r) == multiset(s) + multiset{x}
  {
    if s == [] || !Less(key(s[0]), key(x)) then [x] + s
    else
      assert s == [s[0]] + s[1..];
      [s[0]] + InsertBy(x, s[1..], key)
  }

  /** A stable sort by key. */
  function SortBy<T>(s: seq<T>, key: T -> string): (r: seq<T>)
    ensures multiset(r) == multiset(s)
  {
    if s == [] then []
    else
      assert s == [s[0]] + s[1..];
      InsertBy(s[0], SortBy(s[1..], key), key)
  }

  lemma {:induction false} InsertSorted<T>(x: T, s: seq<T>, key: T -> string)
    requires SortedBy(s, key)
    ensures SortedBy(InsertBy(x, s, key), key)
  {
    if s == [] {
    } else if !Less(key(s[0]), key(x)) {
      forall j | 0 <= j < |s|
        ensures !Less(key(s[j]), key(x))
      {
        if j > 0 {
          NotLessTrans(key(x), key(s[0]), key(s[j]));
        }
      }
    } else {
      InsertSorted(x, s[1..], key);
      var r := InsertBy(x, s[1..], key);
      forall j | 0 <= j < |r|
        ensures !Less(key(r[j]), key(s[0]))
      {
        assert r[j] in multiset(r);
        if r[j] == x {
          LessAsymmetric(key(s[0]), key(x));
        } else {
          assert r[j] in multiset(s[1..]);
          var m :| 0 <= m < |s[1..]| && s[1..][m] == r[j];
          assert s[m + 1] == r[j];
        }
      }
    }
  }

  /** The sort orders by key. */
  lemma {:induction false} SortBySorted<T>(s: seq<T>, key: T -> string)
    ensures SortedBy(SortBy(s, key), key)
  {
    if s != [] {
      SortBySorted(s[1..], key);
      InsertSorted(s[0], SortBy(s[1..], key), key);
    }
  }

  // -----------------------------------------------------------------------
  // The objects

  /** No object twice. */
  predicate Distinct<T(==)>(s: seq<T>) {
    forall i, j :: 0 <= i < j < |s| ==> s[i] != s[j]
  }

  lemma {:induction false} DistinctCounts<T>(s: seq<T>)
    ensures Distinct(s) <==> forall x :: multiset(s)[x] <= 1
  {
    if s != [] {
      var n := |s| - 1;
      var init := s[..n];
      assert s == init + [s[n]];
      DistinctCounts(init);
      if Distinct(s) {
        assert Distinct(init);
        assert s[n] !in init;
      }
      if forall x :: multiset(s)[x] <= 1 {
        assert forall x :: multiset(init)[x] <= multiset(s)[x];
        assert multiset(init)[s[n]] == 0;
        assert forall i :: 0 <= i < n ==> s[i] == init[i];
      }
    }
  }

  /** A permutation of distinct objects holds distinct objects. */
  lemma DistinctPermutation<T>(a: seq<T>, b: seq<T>)
    requires Distinct(a) && multiset(a) == multiset(b)
    ensures Distinct(b)
  {
    DistinctCounts(a);
    DistinctCounts(b);
  }

  /** A file of the list; its name never changes. */
  class UiFile {
    const name: string
    var subTests: seq<SubTest>
    var duration: int

    constructor (name: string)
      ensures this.name == name && subTests == [] && duration == 0
    {
      this.name := name;
      subTests, duration := [], 0;
    }

    /** File.status. */
    function Status(): (r: Status)
      reads this
      ensures r == Error <==> exists i :: 0 <= i < |subTests| && SubTestStatus(subTests[i]) == Error
      ensures r == Done <==> forall i :: 0 <= i < |subTests| ==> SubTestStatus(subTests[i]) == Done
    {
      FileStatusCases(subTests);
      FileStatus(subTests)
    }
  }

  function FileName(f: UiFile): string {
    f.name
  }

  function FileNames(fs: seq<UiFile>): (r: seq<string>)
    ensures |r| == |fs| && forall i :: 0 <= i < |fs| ==> r[i] == fs[i].name
  {
    seq(|fs|, i requires 0 <= i < |fs| => fs[i].name)
  }

  ghost function ViewOf(f: UiFile): FileView
    reads f
  {
    FileView(f.name, f.duration, f.subTests)
  }

  /** What the files hold, position by position. */
  ghost function Snapshot(fs: seq<UiFile>): (r: seq<FileView>)
    reads fs
    ensures |r| == |fs|
  {
    if fs == [] then [] else [ViewOf(fs[0])] + Snapshot(fs[1..])
  }

  lemma {:induction false} SnapshotAt(fs: seq<UiFile>, i: nat)
    requires i < |fs|
    ensures Snapshot(fs)[i] == ViewOf(fs[i])
  {
    if i > 0 {
      SnapshotAt(fs[1..], i - 1);
    }
  }

  lemma {:induction false} SnapshotSnoc(fs: seq<UiFile>, f: UiFile)
    ensures Snapshot(fs + [f]) == Snapshot(fs) + [ViewOf(f)]
  {
    if fs != [] {
      assert (fs + [f])[1..] == fs[1..] + [f];
      SnapshotSnoc(fs[1..], f);
    }
  }

  lemma SnapshotNames(fs: seq<UiFile>)
    ensures ViewNames(Snapshot(fs)) == FileNames(fs)
  {
  }

  lemma SnapshotCons(f: UiFile, fs: seq<UiFile>)
    ensures Snapshot([f] + fs) == [ViewOf(f)] + Snapshot(fs)
  {
    assert ([f] + fs)[1..] == fs;
  }

  /** Inserting a file and taking the snapshot commute, since the sort
      looks at the names only. */
  lemma {:induction false} SnapshotInsert(f: UiFile, fs: seq<UiFile>)
    ensures Snapshot(InsertBy(f, fs, FileName)) == InsertBy(ViewOf(f), Snapshot(fs), ViewName)
  {
    if fs != [] {
      SnapshotCons(fs[0], fs[1..]);
      assert fs == [fs[0]] + fs[1..];
      if Less(FileName(fs[0]), FileName(f)) {
        SnapshotInsert(f, fs[1..]);
        SnapshotCons(fs[0], InsertBy(f, fs[1..], FileName));
        return;
      }
    }
    SnapshotCons(f, fs);
  }

  lemma {:induction false} SnapshotSort(fs: seq<UiFile>)
    ensures Snapshot(SortBy(fs, FileName)) == SortBy(Snapshot(fs), ViewName)
  {
    if fs != [] {
      SnapshotSort(fs[1..]);
      SnapshotInsert(fs[0], SortBy(fs[1..], FileName));
      var sv := Snapshot(fs);
      assert sv[0] == ViewOf(fs[0]) && sv[1..] == Snapshot(fs[1..]);
    }
  }

  /** createFile: a new file with the event's name and duration, and its
      tests when the event lists any. */
  method CreateFile(e: EventFile) returns (f: UiFile)
    ensures fresh(f) && ViewOf(f) == View(e)
  {
    f := new UiFile(e.name);
    if e.subTests.Some? {
      f.subTests := SubTestsOf(e.subTests);
    }
    f.duration := e.duration;
  }

  class Watcher {
    var files: seq<UiFile>

    /** The files are distinct objects, so updating one leaves the others'
        views alone. */
    ghost predicate Valid()
      reads this
    {
      Distinct(files)
    }

    constructor ()
      ensures Valid() && files == []
    {
      files := [];
    }

    /** The UI's list as values. */
    ghost function Files(): seq<FileView>
      reads this, files
    {
      Snapshot(files)
    }

    /** onmessage: the list after the event is the reducer applied to the
        list before it. */
    method OnMessage(e: Event)
      requires Valid()
      modifies this, files
      ensures Valid() && Files() == Reduce(old(Files()), e)
    {
      match e {
        case Init(values) =>
          var created := CreateFiles(values);
          files := SortBy(created, FileName);
          SnapshotSort(created);
          DistinctPermutation(created, files);
        case Start(f) =>
          Update(f);
        case End(f) =>
          Update(f);
        case Other(_) =>
      }
    }

    /** `Object.values(data).map(createFile)`. */
    method CreateFiles(values: seq<EventFile>) returns (created: seq<UiFile>)
      ensures Distinct(created) && forall i :: 0 <= i < |created| ==> fresh(created[i])
      ensures Snapshot(created) == Views(values)
    {
      created := [];
      var i := 0;
      while i < |values|
        invariant 0 <= i <= |values|
        invariant Distinct(created) && forall j :: 0 <= j < |created| ==> fresh(created[j])
        invariant Snapshot(created) == Views(values[..i])
      {
        var f := CreateFile(values[i]);
        SnapshotSnoc(created, f);
        assert Views(values[..i + 1]) == Views(values[..i]) + [View(values[i])];
        created := created + [f];
        i := i + 1;
      }
      assert values[..i] == values;
    }

    /** The file found at k updated in place: its duration and tests
        replaced, nothing else touched. */
    method UpdateAt(k: nat, e: EventFile)
      requires Valid() && k < |files| && files[k].name == e.name
      modifies files[k]
      ensures Files() == old(Files())[k := View(e)]
    {
      ghost var before := Snapshot(files);
      forall j | 0 <= j < |files|
        ensures before[j] == ViewOf(files[j])
      {
        SnapshotAt(files, j);
      }
      var existing := files[k];
      existing.duration := e.duration;
      existing.subTests := SubTestsOf(e.subTests);
      forall j | 0 <= j < |files|
        ensures Snapshot(files)[j] == before[k := View(e)][j]
      {
        SnapshotAt(files, j);
      }
    }

    /** The "start" and "end" case: the first file of the name updated in
        place, or a new file pushed. */
    method Update(e: EventFile)
      requires Valid()
      modifies this, files
      ensures Valid() && Files() == Upsert(old(Files()), e)
    {
      SnapshotNames(files);
      var k := FirstIndex(FileNames(files), e.name);
      match k {
        case Some(k) =>
          UpdateAt(k, e);
        case None =>
          var f := CreateFile(e);
          SnapshotSnoc(files, f);
          files := files + [f];
      }
    }
  }
}
