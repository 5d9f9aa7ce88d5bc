/** The per-file suite (lua/suite.go): the once-only lazy setup, the Test
    and Helper tables, the call log of helpers and metatable members, test
    blocks with their context and after-test hook, and the writes into
    State. The Lua interpreter is not modelled: the values a call finds on
    the stack are a parameter, what the test block or the delegated Go
    function does is an input or an outcome, and the reporter calls the
    suite makes are recorded, in order, as events. */
module Suite {
  import opened Wrappers
  import opened Strs
  import opened Values
  import opened SpecTypes
  import Generate

  // -----------------------------------------------------------------------
  // Contexts, events and outcomes

  /** A reporter, by identity. */
  type ReporterId = nat

  /** The Lua state's context.Context, reduced to what the suite reads and
      attaches: an identity standing for everything else in it, the
      reporter, and whether the save function is attached. */
  datatype Ctx = Ctx(id: nat, reporter: Option<ReporterId>, saveFunc: bool)

  /** runner.WithReporter. */
  function WithReporter(c: Ctx, r: ReporterId): Ctx {
    c.(reporter := Some(r))
  }

  /** One labelled argument of a logged call. */
  datatype InfoArg = InfoArg(name: string, value: string)

  /** A call log entry of type InfoTypeHelper. */
  datatype Info = Info(title: string, args: seq<InfoArg>)

  /** The structured failure GetCheckError finds in the context. */
  datatype CheckError = CheckError(diff: string, expected: string, actual: string)

  /** reporter.NewDiffError and reporter.NewError. */
  datatype TestError = DiffError(diff: string, expected: string, actual: string) | PlainError(message: string)

  /** The reporter calls the suite makes, in order. */
  datatype Event =
    | Logged(ctx: Ctx, info: Info)                          // runner.Info on the current context
    | TestRun(runner: string, name: string)                 // the file reporter's RunTest
    | BlockCalled(ctx: Ctx, functions: map<string, Function>)  // the test block, given the runner's functions
    | ErrorReported(to: ReporterId, error: TestError)       // ReportError
    | AfterTestCalled(runner: string, ctx: Ctx)             // RunnerAfterTest.AfterTest
    | CleanedUp(cleanup: nat)                               // the deferred cleanup of run

  /** The Go function a wrapper delegates to. */
  datatype Callee = FunctionCallee(f: Function) | PropertyCallee(g: GetSet)

  /** How a call from Lua into the suite ends. */
  datatype Outcome =
    | Returned
    | Delegated(to: Callee)
    | Raised(message: string)
    | Panicked(reason: string)

  // -----------------------------------------------------------------------
  // setup

  /** What Manager.doSetup returns: the new context, the runners, the
      cleanup function (by identity) and the error. */
  datatype SetupResult = SetupResult(ctx: Ctx, runners: seq<Runner>, cleanup: Option<nat>, err: Option<string>)

  /** The suite fields setup reads and writes. */
  datatype SetupState = SetupState(setupDone: bool, runners: seq<Runner>, cleanup: Option<nat>, ctx: Ctx)

  /** setup. The Config global is converted by ConvertToGoType, which
      panics on a value it cannot convert; `decode` is mapstructure.Decode
      into the configuration value (its error, if any); `res` is what
      doSetup returns. The runners and the cleanup are stored before the
      error check; the flag is set only when everything succeeded. */
  function SetupStep(st: SetupState, config: LuaValue, decode: Value -> Option<string>, res: SetupResult): (r: (SetupState, Outcome))
    ensures st.setupDone ==> r == (st, Returned)
    ensures r.0.setupDone <==> st.setupDone || r.1 == Returned
    ensures r.1 != Returned ==> r.0.ctx == st.ctx && !r.0.setupDone
    ensures !st.setupDone && r.1 == Returned ==>
      r.0.runners == res.runners && r.0.cleanup == res.cleanup &&
      r.0.ctx.reporter == (if st.ctx.reporter.Some? then st.ctx.reporter else res.ctx.reporter)
  {
    if st.setupDone then (st, Returned)
    else
      match Generate.ConvertToGoType(config)
      case Err(p) => (st, Panicked(p))
      case Ok(t) =>
        if decode(t).Some? then (st, Raised("error decoding config: " + decode(t).value))
        else
          var stored := st.(runners := res.runners, cleanup := res.cleanup);
          if res.err.Some? then (stored, Raised("error during setup: " + res.err.value))
          else
            var ctx := if st.ctx.reporter.Some? then WithReporter(res.ctx, st.ctx.reporter.value) else res.ctx;
            (stored.(ctx := ctx, setupDone := true), Returned)
  }

  /** Setup runs at most once: after it has succeeded, every later call
      returns at once and changes nothing, whatever the configuration or
      doSetup would now give. */
  lemma SetupOnce(st: SetupState, config: LuaValue, decode: Value -> Option<string>, res: SetupResult,
                  config2: LuaValue, decode2: Value -> Option<string>, res2: SetupResult)
    requires SetupStep(st, config, decode, res).1 == Returned
    ensures var after := SetupStep(st, config, decode, res).0;
      after.setupDone && SetupStep(after, config2, decode2, res2) == (after, Returned)
  {
  }

  /** A doSetup error still replaces the runners and the cleanup, and
      leaves the flag false, so the next call runs setup again. */
  lemma FailedSetupKeepsRunners(st: SetupState, config: LuaValue, decode: Value -> Option<string>, res: SetupResult)
    requires !st.setupDone && Generate.ConvertToGoType(config).Ok?
    requires decode(Generate.ConvertToGoType(config).value).None? && res.err.Some?
    ensures var (after, out) := SetupStep(st, config, decode, res);
      && out == Raised("error during setup: " + res.err.value)
      && !after.setupDone && after.runners == res.runners && after.cleanup == res.cleanup
  {
  }

  /** A configuration ConvertToGoType cannot convert, or one that does not
      decode, stops setup before doSetup: nothing changes. */
  lemma BadConfigChangesNothing(st: SetupState, config: LuaValue, decode: Value -> Option<string>, res: SetupResult)
    requires !st.setupDone
    requires Generate.ConvertToGoType(config).Err? || decode(Generate.ConvertToGoType(config).value).Some?
    ensures SetupStep(st, config, decode, res).0 == st
    ensures SetupStep(st, config, decode, res).1 != Returned
  {
  }

  // -----------------------------------------------------------------------
  // Lookups by name (the first match wins)

  /** The first runner with the name. */
  function FindRunner(rs: seq<Runner>, name: string): (r: Option<Runner>)
    ensures r.None? <==> forall i :: 0 <= i < |rs| ==> rs[i].name != name
    ensures r.Some? ==> r.value in rs && r.value.name == name
  {
    if rs == [] then None
    else if rs[0].name == name then Some(rs[0])
    else FindRunner(rs[1..], name)
  }

  /** The runner found is the first one with the name: with several of one
      name, the later ones are never reached. */
  lemma {:induction false} FindRunnerIsFirst(rs: seq<Runner>, name: string, i: nat)
    requires i < |rs| && rs[i].name == name
    requires forall j :: 0 <= j < i ==> rs[j].name != name
    ensures FindRunner(rs, name) == Some(rs[i])
  {
    if i > 0 {
      FindRunnerIsFirst(rs[1..], name, i - 1);
    }
  }

  /** The first function with the name. */
  function FindFunction(fs: seq<Function>, name: string): (r: Option<Function>)
    ensures r.None? <==> forall i :: 0 <= i < |fs| ==> fs[i].name != name
    ensures r.Some? ==> r.value in fs && r.value.name == name
  {
    if fs == [] then None
    else if fs[0].name == name then Some(fs[0])
    else FindFunction(fs[1..], name)
  }

  /** The first property with the name. */
  function FindGetSet(gs: seq<GetSet>, name: string): (r: Option<GetSet>)
    ensures r.None? <==> forall i :: 0 <= i < |gs| ==> gs[i].name != name
    ensures r.Some? ==> r.value in gs && r.value.name == name
  {
    if gs == [] then None
    else if gs[0].name == name then Some(gs[0])
    else FindGetSet(gs[1..], name)
  }

  /** The loop over s.runners that stops at the first runner with the name. */
  method LookupRunner(rs: seq<Runner>, name: string) returns (found: Option<Runner>)
    ensures found == FindRunner(rs, name)
  {
    found := None;
    var i := 0;
    while i < |rs|
      invariant 0 <= i <= |rs|
      invariant FindRunner(rs, name) == FindRunner(rs[i..], name)
    {
      if rs[i].name == name {
        return Some(rs[i]);
      }
      assert rs[i..][1..] == rs[i + 1..];
      i := i + 1;
    }
  }

  /** The loop over a function list that stops at the first match. */
  method LookupFunction(fs: seq<Function>, name: string) returns (found: Option<Function>)
    ensures found == FindFunction(fs, name)
  {
    found := None;
    var i := 0;
    while i < |fs|
      invariant 0 <= i <= |fs|
      invariant FindFunction(fs, name) == FindFunction(fs[i..], name)
    {
      if fs[i].name == name {
        return Some(fs[i]);
      }
      assert fs[i..][1..] == fs[i + 1..];
      i := i + 1;
    }
  }

  /** The loop over a property list that stops at the first match. */
  method LookupGetSet(gs: seq<GetSet>, name: string) returns (found: Option<GetSet>)
    ensures found == FindGetSet(gs, name)
  {
    found := None;
    var i := 0;
    while i < |gs|
      invariant 0 <= i <= |gs|
      invariant FindGetSet(gs, name) == FindGetSet(gs[i..], name)
    {
      if gs[i].name == name {
        return Some(gs[i]);
      }
      assert gs[i..][1..] == gs[i + 1..];
      i := i + 1;
    }
  }

  // -----------------------------------------------------------------------
  // Tables filled by name

  /** Entries written into a Lua function table one after the other: a
      later entry replaces an earlier one with the same key. */
  function Assign<T>(m: map<string, T>, es: seq<(string, T)>): map<string, T> {
    if es == [] then m else Assign(m, es[..|es| - 1])[es[|es| - 1].0 := es[|es| - 1].1]
  }

  lemma {:induction false} AssignAppend<T>(m: map<string, T>, a: seq<(string, T)>, b: seq<(string, T)>)
    ensures Assign(m, a + b) == Assign(Assign(m, a), b)
  {
    if b != [] {
      AssignAppend(m, a, b[..|b| - 1]);
      assert (a + b)[..|a + b| - 1] == a + b[..|b| - 1];
      assert (a + b)[|a + b| - 1] == b[|b| - 1];
    } else {
      assert a + b == a;
    }
  }

  lemma AssignSnoc<T>(m: map<string, T>, es: seq<(string, T)>, k: string, v: T)
    ensures Assign(m, es + [(k, v)]) == Assign(m, es)[k := v]
  {
    assert (es + [(k, v)])[..|es|] == es;
  }

  /** The keys are those of the starting table and of the entries. */
  lemma {:induction false} AssignKeys<T>(m: map<string, T>, es: seq<(string, T)>, k: string)
    ensures k in Assign(m, es) <==> k in m || exists i :: 0 <= i < |es| && es[i].0 == k
  {
    if es != [] {
      var init := es[..|es| - 1];
      AssignKeys(m, init, k);
      assert forall i :: 0 <= i < |init| ==> init[i] == es[i];
    }
  }

  /** The last entry for a key is the one that stays. */
  lemma {:induction false} AssignLastWins<T>(m: map<string, T>, es: seq<(string, T)>, i: nat)
    requires i < |es| && forall j :: i < j < |es| ==> es[j].0 != es[i].0
    ensures es[i].0 in Assign(m, es) && Assign(m, es)[es[i].0] == es[i].1
  {
    if i < |es| - 1 {
      AssignLastWins(m, es[..|es| - 1], i);
    }
  }

  /** A key no entry names keeps its place in the starting table. */
  lemma {:induction false} AssignUntouched<T>(m: map<string, T>, es: seq<(string, T)>, k: string)
    requires forall i :: 0 <= i < |es| ==> es[i].0 != k
    ensures k in Assign(m, es) <==> k in m
    ensures k in m ==> Assign(m, es)[k] == m[k]
  {
    if es != [] {
      AssignUntouched(m, es[..|es| - 1], k);
    }
  }

  /** A runner's functions by name, as the test block receives them. */
  function FunctionEntries(fs: seq<Function>): (es: seq<(string, Function)>)
    ensures |es| == |fs| && forall i :: 0 <= i < |fs| ==> es[i] == (fs[i].name, fs[i])
  {
    if fs == [] then [] else FunctionEntries(fs[..|fs| - 1]) + [(fs[|fs| - 1].name, fs[|fs| - 1])]
  }

  function FuncMap(fs: seq<Function>): map<string, Function> {
    Assign(map[], FunctionEntries(fs))
  }

  /** The module a test block receives: a function for every name, the
      last function declared with that name. */
  lemma FuncMapContents(fs: seq<Function>, i: nat)
    requires i < |fs| && forall j :: i < j < |fs| ==> fs[j].name != fs[i].name
    ensures fs[i].name in FuncMap(fs) && FuncMap(fs)[fs[i].name] == fs[i]
    ensures forall n :: n in FuncMap(fs) <==> exists j :: 0 <= j < |fs| && fs[j].name == n
  {
    AssignLastWins(map[], FunctionEntries(fs), i);
    forall n
      ensures n in FuncMap(fs) <==> exists j :: 0 <= j < |fs| && fs[j].name == n
    {
      AssignKeys(map[], FunctionEntries(fs), n);
    }
  }

  /** The loop that fills a test block's function table. */
  method BuildFuncMap(fs: seq<Function>) returns (mp: map<string, Function>)
    ensures mp == FuncMap(fs)
  {
    mp := map[];
    for i := 0 to |fs|
      invariant mp == FuncMap(fs[..i])
    {
      assert FunctionEntries(fs[..i + 1]) == FunctionEntries(fs[..i]) + [(fs[i].name, fs[i])];
      mp := mp[fs[i].name := fs[i]];
    }
    assert fs[..|fs|] == fs;
  }

  /** The Test table: one entry per runner name, each a test function
      bound to that name. */
  function TestEntries(rs: seq<Runner>): (es: seq<(string, string)>)
    ensures |es| == |rs| && forall i :: 0 <= i < |rs| ==> es[i] == (rs[i].name, rs[i].name)
  {
    if rs == [] then [] else TestEntries(rs[..|rs| - 1]) + [(rs[|rs| - 1].name, rs[|rs| - 1].name)]
  }

  function TestTable(rs: seq<Runner>): map<string, string> {
    Assign(map[], TestEntries(rs))
  }

  /** Test has exactly the manager's runner names as keys, and the
      function under each name looks up the runner of that name. */
  lemma TestTableContents(rs: seq<Runner>, n: string)
    ensures n in TestTable(rs) <==> exists i :: 0 <= i < |rs| && rs[i].name == n
    ensures n in TestTable(rs) ==> TestTable(rs)[n] == n
  {
    AssignKeys(map[], TestEntries(rs), n);
    if n in TestTable(rs) {
      var i :| 0 <= i < |rs| && rs[i].name == n;
      var k := LastNamed(rs, i);
      AssignLastWins(map[], TestEntries(rs), k);
    }
  }

  /** The last runner with the name of runner i. */
  function LastNamed(rs: seq<Runner>, i: nat): (k: nat)
    requires i < |rs|
    decreases |rs| - i
    ensures i <= k < |rs| && rs[k].name == rs[i].name
    ensures forall j :: k < j < |rs| ==> rs[j].name != rs[i].name
  {
    if forall j :: i < j < |rs| ==> rs[j].name != rs[i].name then i
    else
      var j :| i < j < |rs| && rs[j].name == rs[i].name;
      LastNamed(rs, j)
  }

  /** The loop of run that fills Test. */
  method BuildTests(rs: seq<Runner>) returns (tests: map<string, string>)
    ensures tests == TestTable(rs)
  {
    tests := map[];
    for i := 0 to |rs|
      invariant tests == TestTable(rs[..i])
    {
      assert TestEntries(rs[..i + 1]) == TestEntries(rs[..i]) + [(rs[i].name, rs[i].name)];
      tests := tests[rs[i].name := rs[i].name];
    }
    assert rs[..|rs|] == rs;
  }

  // -----------------------------------------------------------------------
  // The Helper table

  /** What a Helper entry calls: a helper a runner declared, looked up
      again at call time among the runners setup produced, or a
      manager-level helper, called directly. */
  datatype Helper = RunnerHelper(runner: string, f: Function) | ManagerHelper(f: Function)

  /** The entries of the runners that implement HasHelperFunctions, runner
      by runner, helper by helper. */
  function RunnerHelperEntries(rs: seq<Runner>): seq<(string, Helper)> {
    if rs == [] then []
    else
      var r := rs[|rs| - 1];
      RunnerHelperEntries(rs[..|rs| - 1]) + (if r.helpers.Some? then HelpersOf(r.name, r.helpers.value) else [])
  }

  function HelpersOf(runner: string, fs: seq<Function>): (es: seq<(string, Helper)>)
    ensures |es| == |fs| && forall i :: 0 <= i < |fs| ==> es[i] == (fs[i].name, RunnerHelper(runner, fs[i]))
  {
    if fs == [] then [] else HelpersOf(runner, fs[..|fs| - 1]) + [(fs[|fs| - 1].name, RunnerHelper(runner, fs[|fs| - 1]))]
  }

  function ManagerEntries(hs: seq<Function>): (es: seq<(string, Helper)>)
    ensures |es| == |hs| && forall i :: 0 <= i < |hs| ==> es[i] == (hs[i].name, ManagerHelper(hs[i]))
  {
    if hs == [] then [] else ManagerEntries(hs[..|hs| - 1]) + [(hs[|hs| - 1].name, ManagerHelper(hs[|hs| - 1]))]
  }

  /** Helper: the runners' helpers first, then the manager's. */
  function HelperTable(rs: seq<Runner>, hs: seq<Function>): map<string, Helper> {
    Assign(map[], RunnerHelperEntries(rs) + ManagerEntries(hs))
  }

  /** A manager-level helper replaces a runner helper of the same name
      (the last manager helper of a name wins). */
  lemma ManagerHelperWins(rs: seq<Runner>, hs: seq<Function>, i: nat)
    requires i < |hs| && forall j :: i < j < |hs| ==> hs[j].name != hs[i].name
    ensures hs[i].name in HelperTable(rs, hs) && HelperTable(rs, hs)[hs[i].name] == ManagerHelper(hs[i])
  {
    var es := RunnerHelperEntries(rs) + ManagerEntries(hs);
    var n := |RunnerHelperEntries(rs)|;
    assert es[n + i] == (hs[i].name, ManagerHelper(hs[i]));
    AssignLastWins(map[], es, n + i);
  }

  /** Without a manager helper of that name, the entry is a runner's. */
  lemma RunnerHelperKept(rs: seq<Runner>, hs: seq<Function>, name: string)
    requires forall j :: 0 <= j < |hs| ==> hs[j].name != name
    ensures name in HelperTable(rs, hs) <==> name in Assign(map[], RunnerHelperEntries(rs))
    ensures name in HelperTable(rs, hs) ==> HelperTable(rs, hs)[name] == Assign(map[], RunnerHelperEntries(rs))[name]
  {
    AssignAppend(map[], RunnerHelperEntries(rs), ManagerEntries(hs));
    AssignUntouched(Assign(map[], RunnerHelperEntries(rs)), ManagerEntries(hs), name);
  }

  /** Every runner entry is a helper its runner declares, under its own
      name. */
  lemma {:induction false} RunnerHelperEntriesFrom(rs: seq<Runner>, k: nat)
    requires k < |RunnerHelperEntries(rs)|
    ensures var (name, h) := RunnerHelperEntries(rs)[k];
      && h.RunnerHelper? && h.f.name == name
      && exists i :: 0 <= i < |rs| && rs[i].name == h.runner && rs[i].helpers.Some? && h.f in rs[i].helpers.value
  {
    var init := RunnerHelperEntries(rs[..|rs| - 1]);
    var r := rs[|rs| - 1];
    if k < |init| {
      RunnerHelperEntriesFrom(rs[..|rs| - 1], k);
      var i :| 0 <= i < |rs| - 1 && rs[..|rs| - 1][i].name == init[k].1.runner && rs[..|rs| - 1][i].helpers.Some? &&
        init[k].1.f in rs[..|rs| - 1][i].helpers.value;
      assert rs[i] == rs[..|rs| - 1][i];
    } else {
      assert RunnerHelperEntries(rs)[k] == HelpersOf(r.name, r.helpers.value)[k - |init|];
    }
  }

  /** The loops of run that fill Helper. */
  method BuildHelpers(rs: seq<Runner>, hs: seq<Function>) returns (helperFuncs: map<string, Helper>)
    ensures helperFuncs == HelperTable(rs, hs)
  {
    helperFuncs := map[];
    for i := 0 to |rs|
      invariant helperFuncs == Assign(map[], RunnerHelperEntries(rs[..i]))
    {
      assert rs[..i + 1][..i] == rs[..i] && rs[..i + 1][i] == rs[i];
      ghost var done := RunnerHelperEntries(rs[..i]);
      if rs[i].helpers.Some? {
        helperFuncs := AddRunnerHelpers(helperFuncs, rs[i].name, rs[i].helpers.value);
        AssignAppend(map[], done, HelpersOf(rs[i].name, rs[i].helpers.value));
        assert RunnerHelperEntries(rs[..i + 1]) == done + HelpersOf(rs[i].name, rs[i].helpers.value);
      } else {
        assert RunnerHelperEntries(rs[..i + 1]) == done + [] == done;
      }
    }
    assert rs[..|rs|] == rs;
    ghost var runnerTable := helperFuncs;
    for k := 0 to |hs|
      invariant helperFuncs == Assign(runnerTable, ManagerEntries(hs[..k]))
    {
      assert hs[..k + 1][..k] == hs[..k];
      assert ManagerEntries(hs[..k + 1]) == ManagerEntries(hs[..k]) + [(hs[k].name, ManagerHelper(hs[k]))];
      AssignSnoc(runnerTable, ManagerEntries(hs[..k]), hs[k].name, ManagerHelper(hs[k]));
      helperFuncs := helperFuncs[hs[k].name := ManagerHelper(hs[k])];
    }
    assert hs[..|hs|] == hs;
    AssignAppend(map[], RunnerHelperEntries(rs), ManagerEntries(hs));
  }

  /** The inner loop over one runner's helpers. */
  method AddRunnerHelpers(m: map<string, Helper>, runner: string, fs: seq<Function>) returns (r: map<string, Helper>)
    ensures r == Assign(m, HelpersOf(runner, fs))
  {
    r := m;
    for k := 0 to |fs|
      invariant r == Assign(m, HelpersOf(runner, fs[..k]))
    {
      assert fs[..k + 1][..k] == fs[..k];
      assert HelpersOf(runner, fs[..k + 1]) == HelpersOf(runner, fs[..k]) + [(fs[k].name, RunnerHelper(runner, fs[k]))];
      AssignSnoc(m, HelpersOf(runner, fs[..k]), fs[k].name, RunnerHelper(runner, fs[k]));
      r := r[fs[k].name := RunnerHelper(runner, fs[k])];
    }
    assert fs[..|fs|] == fs;
  }

  // -----------------------------------------------------------------------
  // A type metatable's __index table

  /** What an __index entry calls. */
  datatype Member = Property(g: GetSet) | Method(f: Function)

  function PropertyEntries(gs: seq<GetSet>): (es: seq<(string, Member)>)
    ensures |es| == |gs| && forall i :: 0 <= i < |gs| ==> es[i] == (gs[i].name, Property(gs[i]))
  {
    if gs == [] then [] else PropertyEntries(gs[..|gs| - 1]) + [(gs[|gs| - 1].name, Property(gs[|gs| - 1]))]
  }

  function MethodEntries(fs: seq<Function>): (es: seq<(string, Member)>)
    ensures |es| == |fs| && forall i :: 0 <= i < |fs| ==> es[i] == (fs[i].name, Method(fs[i]))
  {
    if fs == [] then [] else MethodEntries(fs[..|fs| - 1]) + [(fs[|fs| - 1].name, Method(fs[|fs| - 1]))]
  }

  /** __index: the properties first, then the methods. */
  function IndexTable(t: Typemetatable): map<string, Member> {
    Assign(map[], PropertyEntries(t.getSet) + MethodEntries(t.methods))
  }

  /** A method replaces a property of the same name. */
  lemma MethodShadowsProperty(t: Typemetatable, i: nat)
    requires i < |t.methods| && forall j :: i < j < |t.methods| ==> t.methods[j].name != t.methods[i].name
    ensures t.methods[i].name in IndexTable(t) && IndexTable(t)[t.methods[i].name] == Method(t.methods[i])
  {
    var es := PropertyEntries(t.getSet) + MethodEntries(t.methods);
    assert es[|t.getSet| + i] == (t.methods[i].name, Method(t.methods[i]));
    AssignLastWins(map[], es, |t.getSet| + i);
  }

  /** The loops of run that fill __index. */
  method BuildIndex(t: Typemetatable) returns (index: map<string, Member>)
    ensures index == IndexTable(t)
  {
    index := AddProperties(map[], t.getSet);
    index := AddMethods(index, t.methods);
    AssignAppend(map[], PropertyEntries(t.getSet), MethodEntries(t.methods));
  }

  method AddProperties(m: map<string, Member>, gs: seq<GetSet>) returns (index: map<string, Member>)
    ensures index == Assign(m, PropertyEntries(gs))
  {
    index := m;
    for k := 0 to |gs|
      invariant index == Assign(m, PropertyEntries(gs[..k]))
    {
      assert gs[..k + 1][..k] == gs[..k];
      assert PropertyEntries(gs[..k + 1]) == PropertyEntries(gs[..k]) + [(gs[k].name, Property(gs[k]))];
      AssignSnoc(m, PropertyEntries(gs[..k]), gs[k].name, Property(gs[k]));
      index := index[gs[k].name := Property(gs[k])];
    }
    assert gs[..|gs|] == gs;
  }

  method AddMethods(m: map<string, Member>, fs: seq<Function>) returns (index: map<string, Member>)
    ensures index == Assign(m, MethodEntries(fs))
  {
    index := m;
    for k := 0 to |fs|
      invariant index == Assign(m, MethodEntries(fs[..k]))
    {
      assert fs[..k + 1][..k] == fs[..k];
      assert MethodEntries(fs[..k + 1]) == MethodEntries(fs[..k]) + [(fs[k].name, Method(fs[k]))];
      AssignSnoc(m, MethodEntries(fs[..k]), fs[k].name, Method(fs[k]));
      index := index[fs[k].name := Method(fs[k])];
    }
    assert fs[..|fs|] == fs;
  }

  // -----------------------------------------------------------------------
  // The call log: formatLuaValue and argument labels

  /** formatLuaValue: strings as they are (unquoted), numbers and booleans
      as printed, every table as "{...}", nil as "nil", anything else by
      its String method. */
  function FormatLuaValue(v: LuaValue): (r: string)
    ensures v.LString? ==> r == v.s
    ensures v.LTable? ==> r == "{...}"
    ensures v.LNil? ==> r == "nil"
  {
    match v
    case LString(s) => s
    case LNumber(n) => n.text
    case LBool(b) => if b then "true" else "false"
    case LTable(_, _) => "{...}"
    case LNil => "nil"
    case LUserData(_, addr) => addr
    case LFunction(addr) => addr
  }

  /** The log hides a table's contents: all tables look alike. */
  lemma TablesLookAlike(a: LuaValue, b: LuaValue)
    requires a.LTable? && b.LTable?
    ensures FormatLuaValue(a) == FormatLuaValue(b) == "{...}"
  {
  }

  /** Strings are not quoted, so a string can look like any other value:
      "nil" like nil, "{...}" like a table. */
  lemma StringsAreNotQuoted(v: LuaValue)
    requires v.LNil? || v.LTable? || v.LBool?
    ensures FormatLuaValue(LString(FormatLuaValue(v))) == FormatLuaValue(v)
  {
  }

  /** The name a logged argument gets from the definition at its position:
      the trailing "?" of an optional argument removed once, the variadic
      "..." shown without a name, and no name past the definitions. */
  function ArgLabel(defs: seq<Argument>, k: nat): (r: string)
    ensures r != "..."
    ensures k >= |defs| ==> r == ""
  {
    if k < |defs| then
      var n := TrimSuffix(defs[k].name, "?");
      if n == "..." then "" else n
    else ""
  }

  /** A non-empty label is the name of the definition at its position,
      or that name without its one trailing "?". */
  lemma ArgLabelFrom(defs: seq<Argument>, k: nat)
    ensures ArgLabel(defs, k) != "" ==>
      k < |defs| && (defs[k].name == ArgLabel(defs, k) || defs[k].name == ArgLabel(defs, k) + "?")
  {
  }

  /** An optional argument "x?" is logged as "x"; only one "?" goes. */
  lemma OptionalLabel(defs: seq<Argument>, k: nat, x: string)
    requires k < |defs| && defs[k].name == x + "?" && x != "..."
    ensures ArgLabel(defs, k) == x
  {
    assert HasSuffix(x + "?", "?");
    assert (x + "?")[..|x + "?"| - 1] == x;
  }

  /** Neither "..." nor "...?" ever appears as a label. */
  lemma VariadicUnlabelled(defs: seq<Argument>, k: nat)
    ensures ArgLabel(defs, k) != "..."
  {
  }

  /** The logged arguments: the stack values from position `skip` on (0
      for a helper or "new", 1 to pass over self), each labelled by the
      definition at its position counted from there. */
  function LabelledArgs(defs: seq<Argument>, stack: seq<LuaValue>, skip: nat): (r: seq<InfoArg>)
    ensures |r| == if skip <= |stack| then |stack| - skip else 0
    decreases |stack|
  {
    if |stack| <= skip then []
    else
      var k := |stack| - 1 - skip;
      LabelledArgs(defs, stack[..|stack| - 1], skip) + [InfoArg(ArgLabel(defs, k), FormatLuaValue(stack[|stack| - 1]))]
  }

  /** Argument k of the log is the stack value at skip + k, labelled by
      definition k. */
  lemma {:induction false} LabelledArgAt(defs: seq<Argument>, stack: seq<LuaValue>, skip: nat, k: nat)
    requires skip + k < |stack|
    decreases |stack|
    ensures LabelledArgs(defs, stack, skip)[k] == InfoArg(ArgLabel(defs, k), FormatLuaValue(stack[skip + k]))
  {
    if skip + k < |stack| - 1 {
      LabelledArgAt(defs, stack[..|stack| - 1], skip, k);
    }
  }

  /** Skipping self is logging the rest of the stack as if it were all:
      self is never logged, and the first definition labels the first
      argument after it. */
  lemma {:induction false} SelfNotLogged(defs: seq<Argument>, stack: seq<LuaValue>)
    requires stack != []
    decreases |stack|
    ensures LabelledArgs(defs, stack, 1) == LabelledArgs(defs, stack[1..], 0)
  {
    if |stack| > 1 {
      SelfNotLogged(defs, stack[..|stack| - 1]);
      assert stack[..|stack| - 1][1..] == stack[1..][..|stack[1..]| - 1];
    }
  }

  /** One more stack position logs one more argument. */
  lemma LabelledArgsSnoc(defs: seq<Argument>, stack: seq<LuaValue>, skip: nat, i: nat)
    requires skip < i <= |stack|
    ensures LabelledArgs(defs, stack[..i], skip)
      == LabelledArgs(defs, stack[..i - 1], skip) + [InfoArg(ArgLabel(defs, i - 1 - skip), FormatLuaValue(stack[i - 1]))]
  {
    assert stack[..i][..i - 1] == stack[..i - 1];
  }

  /** The label the argument loop computes for argument `argIdx`. */
  method LabelAt(defs: seq<Argument>, argIdx: nat) returns (argName: string)
    ensures argName == ArgLabel(defs, argIdx)
  {
    argName := "";
    if argIdx < |defs| {
      argName := TrimSuffix(defs[argIdx].name, "?");
      if argName == "..." {
        argName := "";
      }
    }
  }

  /** The argument loop of wrapHelper and wrapTypemetatable: Lua stack
      positions startArg to the top, 1-based. */
  method CollectArgs(defs: seq<Argument>, stack: seq<LuaValue>, startArg: nat) returns (args: seq<InfoArg>)
    requires startArg >= 1
    ensures args == LabelledArgs(defs, stack, startArg - 1)
  {
    args := [];
    var i := startArg;
    if |stack| < startArg {
      return;
    }
    while i <= |stack|
      invariant startArg <= i <= |stack| + 1
      invariant args == LabelledArgs(defs, stack[..i - 1], startArg - 1)
    {
      var value := FormatLuaValue(stack[i - 1]);
      var argName := LabelAt(defs, i - startArg);
      LabelledArgsSnoc(defs, stack, startArg - 1, i);
      args := args + [InfoArg(argName, value)];
      i := i + 1;
    }
    assert stack[..|stack|] == stack;
  }

  // -----------------------------------------------------------------------
  // save

  /** fmt's %T for the values save may be given. */
  function GoTypeName(v: Value): string {
    match v
    case Nil => "<nil>"
    case Bool(_) => "bool"
    case Int(_) => "int"
    case Float(_) => "float64"
    case Str(_) => "string"
    case List(_) => "[]interface {}"
    case Map(_) => "map[string]interface {}"
    case AnyMap(_) => "map[interface {}]interface {}"
  }

  /** The Lua value save stores, or its panic. */
  function SaveValue(v: Value): (r: Result<LuaValue, string>)
    ensures r.Ok? <==> v.Str? || v.Int? || v.Float? || v.Bool?
    ensures r.Err? ==> r.error == "unsupported save type: " + GoTypeName(v)
  {
    match v
    case Str(s) => Ok(LString(s))
    case Int(i) => Ok(LNumber(IntNumber(i)))
    case Float(n) => Ok(LNumber(n))
    case Bool(b) => Ok(LBool(b))
    case _ => Err("unsupported save type: " + GoTypeName(v))
  }

  /** What save stores reads back as what was saved: a string as that
      string, an int as that integer, a float64 as that number, a bool as
      that boolean. */
  lemma SavedReadsBack(v: Value)
    requires SaveValue(v).Ok?
    ensures v.Str? ==> AsString(SaveValue(v).value) == v.s
    ensures v.Int? ==> AsIndex(SaveValue(v).value) == v.i
    ensures v.Float? ==> SaveValue(v).value == LNumber(v.n)
    ensures v.Bool? ==> SaveValue(v).value == LBool(v.b)
  {
  }

  /** Saving nil panics: save does not store a nil. */
  lemma SaveNilPanics()
    ensures SaveValue(Nil) == Err("unsupported save type: <nil>")
  {
    assert "unsupported save type: " + "<nil>" == "unsupported save type: <nil>";
  }

  // -----------------------------------------------------------------------
  // What the wrapped calls do after setup

  /** The context a test block runs in: the pre-test context with the save
      function and the test's own reporter attached. */
  function BlockContext(before: Ctx, child: ReporterId): Ctx {
    WithReporter(before.(saveFunc := true), child)
  }

  /** The reporter calls of a test block run by runner r: the file
      reporter's RunTest, the block itself, the failure if the block
      failed (a diff error when a CheckError is in the context), and
      AfterTest for a runner that implements it, on the restored
      context. */
  function TestEvents(r: Runner, name: string, before: Ctx, child: ReporterId,
                      callErr: Option<string>, checkErr: Option<CheckError>): (es: seq<Event>)
    ensures |es| == 2 + (if callErr.Some? then 1 else 0) + (if r.afterTest then 1 else 0)
    ensures es[0] == TestRun(r.name, name) && es[1].BlockCalled?
  {
    [TestRun(r.name, name), BlockCalled(BlockContext(before, child), FuncMap(r.functions))]
    + (if callErr.None? then []
       else if checkErr.Some? then [ErrorReported(child, DiffError(checkErr.value.diff, checkErr.value.expected, checkErr.value.actual))]
       else [ErrorReported(child, PlainError(callErr.value))])
    + (if r.afterTest then [AfterTestCalled(r.name, before)] else [])
  }

  /** AfterTest runs exactly for runners that implement it, failed block
      or not, and sees the restored context, not the block's. */
  lemma AfterTestOnlyWithHook(r: Runner, name: string, before: Ctx, child: ReporterId,
                              callErr: Option<string>, checkErr: Option<CheckError>)
    ensures var es := TestEvents(r, name, before, child, callErr, checkErr);
      && (r.afterTest <==> es[|es| - 1] == AfterTestCalled(r.name, before))
      && (forall e :: e in es && e.AfterTestCalled? ==> e == AfterTestCalled(r.name, before))
  {
  }

  /** A failed block is reported once, to the test's reporter, as a diff
      error exactly when a CheckError was found; a passing block reports
      nothing. */
  lemma FailureReportedOnce(r: Runner, name: string, before: Ctx, child: ReporterId,
                            callErr: Option<string>, checkErr: Option<CheckError>)
    ensures var es := TestEvents(r, name, before, child, callErr, checkErr);
      && (callErr.None? <==> forall e :: e in es ==> !e.ErrorReported?)
      && (callErr.Some? ==> es[2].ErrorReported? && es[2].to == child && (es[2].error.DiffError? <==> checkErr.Some?))
      && (forall e :: e in es && e.ErrorReported? ==> e == es[2])
  {
    var es := TestEvents(r, name, before, child, callErr, checkErr);
    var tail := if r.afterTest then [AfterTestCalled(r.name, before)] else [];
    assert !es[0].ErrorReported? && !es[1].ErrorReported?;
    assert forall e :: e in tail ==> !e.ErrorReported?;
    if callErr.None? {
      assert es == es[..2] + tail;
      forall e | e in es ensures !e.ErrorReported? {
        assert e in es[..2] || e in tail;
      }
    } else {
      assert es[2] in es;
    }
  }

  /** The block sees its test's reporter and the save function. */
  lemma BlockSeesTestReporter(before: Ctx, child: ReporterId)
    ensures BlockContext(before, child).reporter == Some(child) && BlockContext(before, child).saveFunc
    ensures BlockContext(before, child).id == before.id
  {
  }

  /** The message of a failed interface type assertion on a runner that
      does not implement HasHelperFunctions. Go names the runner's concrete
      type where this text says "runner"; the model's runners carry no Go
      type, so the text is the same for all of them. */
  const NotHelperRunner := "interface conversion: runner is not spec.HasHelperFunctions: missing method HelperFunctions"

  /** What a Helper entry delegates to once setup is done. A runner helper
      is looked up again, by the runner's name among the runners setup
      produced, then by the helper's name among that runner's helpers. */
  function HelperTarget(h: Helper, runners: seq<Runner>): (out: Outcome)
    ensures h.ManagerHelper? ==> out == Delegated(FunctionCallee(h.f))
    ensures out.Delegated? ==> out.to.FunctionCallee? && out.to.f.name == h.f.name
    ensures h.RunnerHelper? && out.Delegated? ==>
      FindRunner(runners, h.runner).Some? && FindRunner(runners, h.runner).value.helpers.Some? &&
      out.to.f in FindRunner(runners, h.runner).value.helpers.value
  {
    match h
    case ManagerHelper(f) => Delegated(FunctionCallee(f))
    case RunnerHelper(rn, f) =>
      match FindRunner(runners, rn)
      case None => Raised("runner " + Quote(rn) + " not found")
      case Some(r) =>
        if r.helpers.None? then Panicked(NotHelperRunner)
        else
          match FindFunction(r.helpers.value, f.name)
          case None => Raised("helper function " + Quote(f.name) + " not found")
          case Some(g) => Delegated(FunctionCallee(g))
  }

  /** The argument definitions wrapTypemetatable labels with: Init's for
      "new" when there is an Init; otherwise the first method of the name,
      or, when that has none, the set arguments of the first property of
      the name. An empty list stands for Go's nil. */
  function ArgDefs(t: Typemetatable, methodName: string): (defs: seq<Argument>)
    reads if t.init.Some? then {t.init.value} else {}
    ensures defs == [] || (methodName == "new" && t.init.Some? && defs == t.init.value.fn.args)
      || (exists m :: m in t.methods && m.name == methodName && m.args == defs)
      || (exists g :: g in t.getSet && g.name == methodName && g.setArguments == defs)
    ensures (methodName != "new" && (forall m :: m in t.methods ==> m.name != methodName)
             && (forall g :: g in t.getSet ==> g.name != methodName)) ==> defs == []
  {
    if methodName == "new" && t.init.Some? then t.init.value.fn.args
    else
      var m := FindFunction(t.methods, methodName);
      var fromMethod := if m.Some? then m.value.args else [];
      if fromMethod != [] then fromMethod
      else
        var g := FindGetSet(t.getSet, methodName);
        if g.Some? then g.value.setArguments else []
  }

  /** The lookups of wrapTypemetatable. */
  method TypeArgDefs(t: Typemetatable, methodName: string) returns (argDefs: seq<Argument>)
    ensures argDefs == ArgDefs(t, methodName)
  {
    if methodName == "new" && t.init.Some? {
      return t.init.value.fn.args;
    }
    argDefs := [];
    var m := LookupFunction(t.methods, methodName);
    if m.Some? {
      argDefs := m.value.args;
    }
    if argDefs == [] {
      var g := LookupGetSet(t.getSet, methodName);
      if g.Some? {
        argDefs := g.value.setArguments;
      }
    }
  }

  /** The log title: "T.new" for the constructor, "T:m" for the rest. */
  function TypeTitle(typeName: string, methodName: string): string {
    if methodName == "new" then typeName + ".new" else typeName + ":" + methodName
  }

  /** The title tells the constructor from every method: no method name
      gives "T.new". */
  lemma TitlesDistinct(typeName: string, methodName: string)
    requires methodName != "new"
    ensures TypeTitle(typeName, methodName) != TypeTitle(typeName, "new")
  {
    assert TypeTitle(typeName, methodName)[|typeName|] == ':';
    assert TypeTitle(typeName, "new")[|typeName|] == '.';
  }

  /** Where the logged arguments start: self is skipped except for "new". */
  function SkipSelf(methodName: string): nat {
    if methodName == "new" then 0 else 1
  }

  /** What a type metatable entry calls: the constructor (a missing Init is
      dereferenced anyway), or an __index member. */
  datatype TypeEntry = Constructor | IndexEntry(m: Member)

  const NilDereference := "runtime error: invalid memory address or nil pointer dereference"

  function TypeTarget(t: Typemetatable, e: TypeEntry): (out: Outcome)
    reads if t.init.Some? then {t.init.value} else {}
    ensures out.Panicked? <==> e.Constructor? && t.init.None?
  {
    match e
    case Constructor => if t.init.None? then Panicked(NilDereference) else Delegated(FunctionCallee(t.init.value.fn))
    case IndexEntry(Property(g)) => Delegated(PropertyCallee(g))
    case IndexEntry(Method(f)) => Delegated(FunctionCallee(f))
  }

  // -----------------------------------------------------------------------
  // The suite

  class Suite {
    var setupDone: bool
    var runners: seq<Runner>
    var cleanup: Option<nat>
    /** The State table, by string key. */
    var state: map<string, LuaValue>
    /** The Lua state's context. */
    var ctx: Ctx
    var events: seq<Event>
    /** The file reporter. */
    const reporter: ReporterId

    /** newSuite and the start of run: a fresh State table and the file
        reporter attached to the context. */
    constructor (reporter: ReporterId, base: Ctx)
      ensures !setupDone && runners == [] && cleanup == None && state == map[] && events == []
      ensures this.reporter == reporter && ctx == WithReporter(base, reporter)
    {
      setupDone := false;
      runners := [];
      cleanup := None;
      state := map[];
      events := [];
      this.reporter := reporter;
      ctx := WithReporter(base, reporter);
    }

    function Fields(): SetupState
      reads this
    {
      SetupState(setupDone, runners, cleanup, ctx)
    }

    method Setup(config: LuaValue, decode: Value -> Option<string>, res: SetupResult) returns (out: Outcome)
      modifies this
      ensures (Fields(), out) == SetupStep(old(Fields()), config, decode, res)
      ensures state == old(state) && events == old(events)
    {
      if setupDone {
        return Returned;
      }
      var t := Generate.ConvertToGoType(config);
      if t.Err? {
        return Panicked(t.error);
      }
      var err := decode(t.value);
      if err.Some? {
        return Raised("error decoding config: " + err.value);
      }
      var currentReporter := ctx.reporter;
      var newCtx := res.ctx;
      runners, cleanup := res.runners, res.cleanup;
      if res.err.Some? {
        return Raised("error during setup: " + res.err.value);
      }
      if currentReporter.Some? {
        newCtx := WithReporter(newCtx, currentReporter.value);
      }
      ctx := newCtx;
      setupDone := true;
      return Returned;
    }

    /** Test.<runnerName>(name, fn): setup, the runner looked up by name
        among the runners setup produced, then the block run through the
        file reporter with the test's reporter `child`. `callErr` is the
        block's error and `checkErr` what GetCheckError then finds. */
    method NewTest(runnerName: string, name: string, config: LuaValue, decode: Value -> Option<string>, res: SetupResult,
                   child: ReporterId, callErr: Option<string>, checkErr: Option<CheckError>) returns (out: Outcome)
      modifies this
      ensures var (st, o) := SetupStep(old(Fields()), config, decode, res);
        && state == old(state) && Fields() == st
        && (o != Returned ==> out == o && events == old(events))
        && (o == Returned && FindRunner(st.runners, runnerName).None? ==>
              out == Raised("runner " + Quote(runnerName) + " not found") && events == old(events))
        && (o == Returned && FindRunner(st.runners, runnerName).Some? ==>
              out == Returned &&
              events == old(events) + TestEvents(FindRunner(st.runners, runnerName).value, name, st.ctx, child, callErr, checkErr))
    {
      out := Setup(config, decode, res);
      if out != Returned {
        return;
      }
      var actualRunner := LookupRunner(runners, runnerName);
      if actualRunner.None? {
        return Raised("runner " + Quote(runnerName) + " not found");
      }
      RunTest(actualRunner.value, name, child, callErr, checkErr);
      return Returned;
    }

    /** The test block run through the file reporter, with the context
        put back afterwards. */
    method RunTest(r: Runner, name: string, child: ReporterId, callErr: Option<string>, checkErr: Option<CheckError>)
      modifies this
      ensures events == old(events) + TestEvents(r, name, old(ctx), child, callErr, checkErr)
      ensures Fields() == old(Fields()) && state == old(state)
    {
      var ctxBeforeTest := ctx;
      events := events + [TestRun(r.name, name)];
      ctx := WithReporter(ctx.(saveFunc := true), child);
      var mp := BuildFuncMap(r.functions);
      events := events + [BlockCalled(ctx, mp)];
      if callErr.Some? {
        if checkErr.Some? {
          events := events + [ErrorReported(child, DiffError(checkErr.value.diff, checkErr.value.expected, checkErr.value.actual))];
        } else {
          events := events + [ErrorReported(child, PlainError(callErr.value))];
        }
      }
      ctx := ctxBeforeTest;
      if r.afterTest {
        events := events + [AfterTestCalled(r.name, ctx)];
      }
    }

    /** A Helper entry called from Lua: the call logged as
        "Helper.<name>" on the current context, then setup, then the
        delegation. */
    method CallHelper(h: Helper, stack: seq<LuaValue>, config: LuaValue, decode: Value -> Option<string>, res: SetupResult)
      returns (out: Outcome)
      modifies this
      ensures var (st, o) := SetupStep(old(Fields()), config, decode, res);
        && state == old(state) && Fields() == st
        && events == old(events) + [Logged(old(ctx), Info("Helper." + h.f.name, LabelledArgs(h.f.args, stack, 0)))]
        && out == (if o != Returned then o else HelperTarget(h, st.runners))
    {
      var args := CollectArgs(h.f.args, stack, 1);
      events := events + [Logged(ctx, Info("Helper." + h.f.name, args))];
      out := Setup(config, decode, res);
      if out != Returned {
        return;
      }
      match h
      case ManagerHelper(f) =>
        return Delegated(FunctionCallee(f));
      case RunnerHelper(rn, f) =>
        var actualRunner := LookupRunner(runners, rn);
        if actualRunner.None? {
          return Raised("runner " + Quote(rn) + " not found");
        }
        if actualRunner.value.helpers.None? {
          return Panicked(NotHelperRunner);
        }
        var fn := LookupFunction(actualRunner.value.helpers.value, f.name);
        if fn.None? {
          return Raised("helper function " + Quote(f.name) + " not found");
        }
        return Delegated(FunctionCallee(fn.value));
    }

    /** A type metatable entry called from Lua under `methodName`: the
        call logged with its title and arguments, then setup, then the
        delegation. */
    method CallTypeMember(t: Typemetatable, methodName: string, e: TypeEntry, stack: seq<LuaValue>,
                          config: LuaValue, decode: Value -> Option<string>, res: SetupResult) returns (out: Outcome)
      modifies this
      ensures var (st, o) := SetupStep(old(Fields()), config, decode, res);
        && state == old(state) && Fields() == st
        && events == old(events) + [Logged(old(ctx), Info(TypeTitle(t.name, methodName),
                                                          LabelledArgs(ArgDefs(t, methodName), stack, SkipSelf(methodName))))]
        && out == (if o != Returned then o else TypeTarget(t, e))
    {
      var argDefs := TypeArgDefs(t, methodName);
      var startArg := 1;
      if methodName != "new" {
        startArg := 2;
      }
      var args := CollectArgs(argDefs, stack, startArg);
      var title;
      if methodName == "new" {
        title := t.name + ".new";
      } else {
        title := t.name + ":" + methodName;
      }
      events := events + [Logged(ctx, Info(title, args))];
      out := Setup(config, decode, res);
      if out != Returned {
        return;
      }
      match e
      case Constructor =>
        if t.init.None? {
          return Panicked(NilDereference);
        }
        return Delegated(FunctionCallee(t.init.value.fn));
      case IndexEntry(Property(g)) =>
        return Delegated(PropertyCallee(g));
      case IndexEntry(Method(f)) =>
        return Delegated(FunctionCallee(f));
    }

    /** save: the value stored in State under the key, or the panic, with
        State unchanged. */
    method Save(key: string, value: Value) returns (panicked: Option<string>)
      modifies this
      ensures SaveValue(value).Ok? ==> panicked.None? && state == old(state)[key := SaveValue(value).value]
      ensures SaveValue(value).Err? ==> panicked == Some(SaveValue(value).error) && state == old(state)
      ensures Fields() == old(Fields()) && events == old(events)
    {
      var val: LuaValue;
      if value.Str? {
        val := LString(value.s);
      } else if value.Int? {
        val := LNumber(IntNumber(value.i));
      } else if value.Float? {
        val := LNumber(value.n);
      } else if value.Bool? {
        val := LBool(value.b);
      } else {
        return Some("unsupported save type: " + GoTypeName(value));
      }
      state := state[key := val];
      return None;
    }

    /** The end of run: a DoFile error reported to the file reporter, then
        the deferred cleanup, if setup stored one. */
    method Finish(fileErr: Option<string>)
      modifies this
      ensures events == old(events)
        + (if fileErr.Some? then [ErrorReported(reporter, PlainError(fileErr.value))] else [])
        + (if cleanup.Some? then [CleanedUp(cleanup.value)] else [])
      ensures Fields() == old(Fields()) && state == old(state)
    {
      if fileErr.Some? {
        events := events + [ErrorReported(reporter, PlainError(fileErr.value))];
      }
      if cleanup.Some? {
        events := events + [CleanedUp(cleanup.value)];
      }
    }
  }
}
