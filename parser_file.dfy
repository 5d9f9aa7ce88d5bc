/** A parsed SQL test file and its execution (testmanager/parser/file.go):
    the options become path-filtered comparison rules whose paths may use
    "*" for any list index, the STORE entries copy values of the result
    into the shared state, and the result is compared with the decoded
    RETURNS document. */
module ParserFile {
  import opened Wrappers
  import opened Strs
  import opened Values
  import opened Matcher
  import opened Store

  /** The option names (declared in testmanager/parser/parser.go). */
  const NotNullOption := "NOTNULL"
  const IgnoreOption := "IGNORE"

  /** File: the query, the options (path to option name), the expected
      document text and the store entries (state key to path). */
  datatype File = File(query: string, opts: map<string, string>, returnsText: string, store: map<string, string>)

  predicate KnownOption(option: string) {
    option == NotNullOption || option == IgnoreOption
  }

  /** The rule an option yields: at "." + path, matched exactly or with
      every list index read as "*". */
  function OptionRule(path: string, option: string): Rule
    requires KnownOption(option)
  {
    Rule("." + path, true, if option == NotNullOption then CheckNotNull else IgnoreValue)
  }

  function UnknownOption(path: string, option: string): string {
    "unknown option " + Quote(option) + " for path " + Quote(path)
  }

  /** `rules` are exactly the rules of the options, one per path. */
  predicate RulesOf(rules: seq<Rule>, opts: map<string, string>) {
    && |rules| == |opts|
    && (forall p :: p in opts ==> KnownOption(opts[p]) && OptionRule(p, opts[p]) in rules)
    && (forall i :: 0 <= i < |rules| ==> exists p :: p in opts && KnownOption(opts[p]) && rules[i] == OptionRule(p, opts[p]))
  }

  /** File.CmpOpts: one rule per option in map iteration order, or the
      error naming an unknown option. */
  method CmpOpts(f: File) returns (r: Result<seq<Rule>, string>)
    ensures r.Ok? <==> forall p :: p in f.opts ==> KnownOption(f.opts[p])
    ensures r.Ok? ==> RulesOf(r.value, f.opts)
    ensures r.Err? ==> exists p :: p in f.opts && !KnownOption(f.opts[p]) && r.error == UnknownOption(p, f.opts[p])
  {
    var rules: seq<Rule> := [];
    ghost var done: set<string> := {};
    var remaining := f.opts.Keys;
    while remaining != {}
      invariant remaining <= f.opts.Keys
      invariant done == f.opts.Keys - remaining
      invariant RulesFor(rules, f.opts, done)
      decreases |remaining|
    {
      var path :| path in remaining;
      var option := f.opts[path];
      if option == NotNullOption || option == IgnoreOption {
        RulesForStep(rules, f.opts, done, path);
        rules := rules + [OptionRule(path, option)];
      } else {
        assert path in f.opts && !KnownOption(f.opts[path]);
        return Err(UnknownOption(path, option));
      }
      remaining := remaining - {path};
      done := done + {path};
    }
    RulesForAll(rules, f.opts);
    return Ok(rules);
  }

  /** The loop's progress: `rules` are the rules of the options at the
      paths in `done`, one per path. */
  predicate RulesFor(rules: seq<Rule>, opts: map<string, string>, done: set<string>) {
    && done <= opts.Keys
    && |rules| == |done|
    && (forall p :: p in done ==> KnownOption(opts[p]) && OptionRule(p, opts[p]) in rules)
    && (forall i :: 0 <= i < |rules| ==> exists p :: p in done && KnownOption(opts[p]) && rules[i] == OptionRule(p, opts[p]))
  }

  /** One more known option. */
  lemma RulesForStep(rules: seq<Rule>, opts: map<string, string>, done: set<string>, path: string)
    requires RulesFor(rules, opts, done) && path in opts && path !in done && KnownOption(opts[path])
    ensures RulesFor(rules + [OptionRule(path, opts[path])], opts, done + {path})
  {
    var rules' := rules + [OptionRule(path, opts[path])];
    forall i | 0 <= i < |rules'|
      ensures exists p :: p in done + {path} && KnownOption(opts[p]) && rules'[i] == OptionRule(p, opts[p])
    {
      if i < |rules| {
        var p :| p in done && KnownOption(opts[p]) && rules[i] == OptionRule(p, opts[p]);
        assert rules'[i] == rules[i];
      } else {
        assert rules'[i] == OptionRule(path, opts[path]);
      }
    }
  }

  /** Every path done: the rules of all the options. */
  lemma RulesForAll(rules: seq<Rule>, opts: map<string, string>)
    requires RulesFor(rules, opts, opts.Keys)
    ensures RulesOf(rules, opts)
    ensures forall p :: p in opts ==> KnownOption(opts[p])
  {
    assert |opts| == |opts.Keys|;
  }

  /** ignorePath(path)(p) of this file: the exact and the wildcard
      renderings of p are both compared with "." + path. */
  method IgnorePath(path: string, p: seq<Step>) returns (matched: bool)
    ensures matched <==> Applies(OptionRule(path, IgnoreOption), p)
    ensures matched <==> Applies(OptionRule(path, NotNullOption), p)
  {
    var s := "";
    var wide := "";
    for i := 0 to |p|
      invariant s == Exact(p[..i]) && wide == Wide(p[..i])
    {
      assert p[..i + 1][..i] == p[..i];
      match p[i]
      case MapIndex(k) =>
        s := s + "." + k;
        wide := wide + "." + k;
      case SliceIndex(n) =>
        s := s + "." + Itoa(n);
        wide := wide + ".*";
    }
    assert p[..|p|] == p;
    matched := s == "." + path || wide == "." + path;
  }

  /** The state map shared by the files of a run; Go maps are references,
      so the callee's writes are seen by the caller. */
  class Vars {
    var entries: map<string, Value>

    constructor (initial: map<string, Value>)
      ensures entries == initial
    {
      entries := initial;
    }
  }

  /** Every store path of `store` reaches a value in `val`. */
  predicate StoreWalks(store: map<string, string>, val: map<string, Value>) {
    forall k :: k in store ==> Walk(val, store[k]).Found?
  }

  /** The state entries written for the store keys in `keys`. */
  function StoredOf(store: map<string, string>, val: map<string, Value>, keys: set<string>): map<string, Value> {
    map k | k in keys && k in store && Walk(val, store[k]).Found? :: Walk(val, store[k]).value
  }

  /** The state entries a successful AppendStore writes. */
  function StoredValues(store: map<string, string>, val: map<string, Value>): map<string, Value> {
    StoredOf(store, val, store.Keys)
  }

  lemma StoredOfAdd(old_: map<string, Value>, store: map<string, string>, val: map<string, Value>, keys: set<string>, key: string)
    requires key in store && Walk(val, store[key]).Found?
    ensures old_ + StoredOf(store, val, keys + {key})
         == (old_ + StoredOf(store, val, keys))[key := Walk(val, store[key]).value]
  {
    var v := Walk(val, store[key]).value;
    var before := StoredOf(store, val, keys);
    assert StoredOf(store, val, keys + {key}) == before[key := v];
    MergeUpdate(old_, before, key, v);
  }

  lemma MergeUpdate<K, V>(a: map<K, V>, b: map<K, V>, k: K, v: V)
    ensures a + b[k := v] == (a + b)[k := v]
  {
  }

  /** File.AppendStore: for each store entry (in map iteration order) walk
      its path through `val` and write the value under its key; a walk
      that panics ends the run with the earlier writes kept. `written`
      are the keys written before it. */
  method AppendStore(f: File, val: map<string, Value>, state: Vars)
    returns (panicked: Option<string>, ghost written: set<string>)
    modifies state
    ensures panicked.None? <==> StoreWalks(f.store, val)
    ensures panicked.Some? ==> exists k :: k in f.store && Walk(val, f.store[k]) == Stuck(panicked.value)
    ensures written <= f.store.Keys && (panicked.None? ==> written == f.store.Keys)
    ensures forall k :: k in written ==> Walk(val, f.store[k]).Found?
    ensures state.entries == old(state.entries) + StoredOf(f.store, val, written)
  {
    var remaining := f.store.Keys;
    written := {};
    while remaining != {}
      invariant remaining <= f.store.Keys
      invariant written == f.store.Keys - remaining
      invariant forall k :: k in written ==> Walk(val, f.store[k]).Found?
      invariant state.entries == old(state.entries) + StoredOf(f.store, val, written)
      decreases |remaining|
    {
      var key :| key in remaining;
      var found := Follow(val, f.store[key]);
      if found.Stuck? {
        return Some(found.reason), written;
      }
      StoredOfAdd(old(state.entries), f.store, val, written, key);
      state.entries := state.entries[key := found.value];
      remaining := remaining - {key};
      written := written + {key};
    }
    panicked := None;
  }

  /** How Execute fails; a panic of the store walk is listed with them. */
  datatype ExecError =
    | ExecutorFailed(message: string)
    | StorePanicked(reason: string)
    | ReturnsInvalid(message: string)
    | OptionInvalid(message: string)
    | Mismatch

  /** The value `expected` holds after decoding RETURNS: the decoded
      document, or for an empty document the preset, an empty list when
      the text starts with "[" and an empty map otherwise. */
  function Expected(returnsText: string, decoded: Option<Value>): (v: Value)
    ensures decoded.None? && HasPrefix(returnsText, "[") ==> v == List([])
    ensures decoded.None? && !HasPrefix(returnsText, "[") ==> v == Map(map[])
    ensures decoded.Some? ==> v == decoded.value
  {
    match decoded
    case Some(d) => d
    case None => if HasPrefix(returnsText, "[") then List([]) else Map(map[])
  }

  /** The store walk panics for this result. */
  predicate StorePanics(f: File, val: Value) {
    val.Map? && !StoreWalks(f.store, val.fields)
  }

  /** File.Execute. The executor's outcome and the YAML decoder are
      parameters; `rules` is the option list of this run. */
  method Execute(f: File, state: Vars, executed: Result<Value, string>,
                 decode: string -> Result<Option<Value>, string>)
    returns (err: Option<ExecError>, rules: seq<Rule>)
    modifies state
    ensures executed.Err? ==> err == Some(ExecutorFailed(executed.error)) && state.entries == old(state.entries)
    ensures executed.Ok? && !executed.value.Map? ==> state.entries == old(state.entries)
    ensures executed.Ok? && executed.value.Map? && !StorePanics(f, executed.value) ==>
      state.entries == old(state.entries) + StoredValues(f.store, executed.value.fields)
    ensures (err.Some? && err.value.StorePanicked?) <==> executed.Ok? && StorePanics(f, executed.value)
    ensures executed.Ok? && !StorePanics(f, executed.value) && decode(f.returnsText).Err? ==>
      err == Some(ReturnsInvalid("unable to unmarshal expected returns: " + decode(f.returnsText).error + "\n" + f.returnsText))
    ensures executed.Ok? && !StorePanics(f, executed.value) && decode(f.returnsText).Ok? ==>
      && ((err.Some? && err.value.OptionInvalid?) <==> exists p :: p in f.opts && !KnownOption(f.opts[p]))
      && ((forall p :: p in f.opts ==> KnownOption(f.opts[p])) ==>
            && RulesOf(rules, f.opts)
            && (err.None? <==> Equal(rules, executed.value, Expected(f.returnsText, decode(f.returnsText).value)))
            && (err.Some? ==> err == Some(Mismatch)))
  {
    rules := [];
    if executed.Err? {
      return Some(ExecutorFailed(executed.error)), rules;
    }
    var val := executed.value;
    if val.Map? {
      var panicked, _ := AppendStore(f, val.fields, state);
      if panicked.Some? {
        return Some(StorePanicked(panicked.value)), rules;
      }
    }
    var decoded := decode(f.returnsText);
    if decoded.Err? {
      return Some(ReturnsInvalid("unable to unmarshal expected returns: " + decoded.error + "\n" + f.returnsText)), rules;
    }
    var expected := Expected(f.returnsText, decoded.value);
    var opts := CmpOpts(f);
    if opts.Err? {
      return Some(OptionInvalid(opts.error)), rules;
    }
    rules := opts.value;
    if !Equal(rules, val, expected) {
      return Some(Mismatch), rules;
    }
    return None, rules;
  }

  // -----------------------------------------------------------------------
  // Properties of the options

  /** The verdict does not depend on the order CmpOpts produced. */
  lemma OptionOrderIrrelevant(r1: seq<Rule>, r2: seq<Rule>, opts: map<string, string>, x: Value, y: Value)
    requires RulesOf(r1, opts) && RulesOf(r2, opts)
    ensures Equal(r1, x, y) <==> Equal(r2, x, y)
  {
    forall r ensures r in r1 <==> r in r2 {
      if r in r1 {
        var i :| 0 <= i < |r1| && r1[i] == r;
      }
      if r in r2 {
        var i :| 0 <= i < |r2| && r2[i] == r;
      }
    }
    EqualSameRules(r1, r2, [], x, y);
  }

  /** Without options the result must equal the expected document. */
  lemma NoOptionsMeansEquality(rules: seq<Rule>, x: Value, y: Value)
    requires RulesOf(rules, map[])
    ensures Equal(rules, x, y) <==> x == y
  {
    assert rules == [];
    NoRulesIsEquality([], x, y);
  }

  /** An option path applies at every go-cmp path whose wildcard rendering
      it names, whatever the list indices: IGNORE ignores the value there
      and NOTNULL, unless also ignored, demands two non-nil values. */
  lemma WildcardOption(rules: seq<Rule>, opts: map<string, string>, path: string, p: seq<Step>)
    requires RulesOf(rules, opts) && path in opts
    requires Wide(p) == "." + path
    ensures opts[path] == IgnoreOption ==> Ignored(rules, p)
    ensures opts[path] == NotNullOption ==> Checked(rules, p)
  {
    var r := OptionRule(path, opts[path]);
    assert r in rules;
    var i :| 0 <= i < |rules| && rules[i] == r;
    assert Applies(rules[i], p);
  }

  /** "items.*.id" names the id of every element of the list "items". */
  lemma WildcardCoversEveryIndex(n: int)
    ensures Wide([MapIndex("items"), SliceIndex(n), MapIndex("id")]) == ".items.*.id"
  {
    var p := [MapIndex("items"), SliceIndex(n), MapIndex("id")];
    assert p[..2] == [MapIndex("items"), SliceIndex(n)];
    assert p[..2][..1] == [MapIndex("items")];
    assert [MapIndex("items")][..0] == [];
    assert Wide([MapIndex("items")]) == ".items";
    assert Wide(p[..2]) == ".items.*";
  }
}
