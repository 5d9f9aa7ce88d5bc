/** The response matcher of the Lua runners (lua/runner/check.go): the
    expected Lua table is converted to a host value plus comparison rules
    (one per placeholder), compared with the response, and the values
    under `Save` placeholders are handed to the save callback. */
module Check {
  import opened Wrappers
  import opened Strs
  import opened Values
  import opened Matcher
  import opened Store

  /** What convertToCheck accumulates: the paths to save (path to name)
      and the comparison options, in the order they were appended. */
  datatype Acc = Acc(toSave: map<string, string>, rules: seq<Rule>)

  /** notNull(path): at exactly `path`, compare with cmpNotNull. */
  function NotNull(path: string): Rule {
    Rule(path, false, CheckNotNull)
  }

  /** allowNull(path): at exactly `path`, ignore the value. */
  function AllowNull(path: string): Rule {
    Rule(path, false, IgnoreValue)
  }

  const SaveMarker := "[[[ save ]]]"
  const SaveAllowNullMarker := "[[[ save_allow_null ]]]"
  const IgnoreMarker := "[[[ ignore ]]]"
  const IgnoreAllowNullMarker := "[[[ ignore_allow_null ]]]"

  /** The errors of convertToCheck for values it cannot convert. */
  const NullDataError := "unknown userdata type spec.Null"
  const UserDataPrefix := "unknown userdata type "
  const FunctionError := "unknown typefunction"

  /** A conversion: the host value and the accumulator, or the panic text. */
  type Conversion = Result<(Value, Acc), string>

  /** A value convertToCheck panics on somewhere: a function, a userdata
      that is not a placeholder (the `Null` marker included), inside any
      table slot ForEach visits. Keys are never converted. */
  predicate Unconvertible(v: LuaValue)
    decreases v
  {
    match v
    case LFunction(_) => true
    case LUserData(payload, _) => payload.NullData? || payload.ForeignData?
    case LTable(_, _) => exists j :: 0 <= j < SlotCount(v) && Unconvertible(SlotValue(v, j))
    case _ => false
  }

  predicate UnconvertibleFrom(t: LuaValue, j: nat)
    requires t.LTable?
  {
    exists i :: j <= i < SlotCount(t) && Unconvertible(SlotValue(t, i))
  }

  /** Slot j is unconvertible or a later one is. */
  lemma UnconvertibleFromStep(t: LuaValue, j: nat)
    requires t.LTable? && j < SlotCount(t)
    ensures UnconvertibleFrom(t, j) <==> Unconvertible(SlotValue(t, j)) || UnconvertibleFrom(t, j + 1)
  {
    if UnconvertibleFrom(t, j) {
      var i :| j <= i < SlotCount(t) && Unconvertible(SlotValue(t, i));
      if i > j {
        assert UnconvertibleFrom(t, j + 1);
      }
    }
  }

  // -----------------------------------------------------------------------
  // What a conversion produces

  /** The segment convertToCheck appends for slot j of t: the key as
      LVAsString renders it when t is converted as a map, the Lua index
      minus one when t is converted as a list. */
  function Segment(t: LuaValue, j: nat): string
    requires t.LTable? && j < SlotCount(t)
  {
    if Len(t.arrayPart) == 0 then AsString(SlotKey(t, j)) else Itoa(AsIndex(SlotKey(t, j)) - 1)
  }

  /** The host value convertToCheck builds from v. It depends neither on
      the path nor on what was accumulated before; for a value the
      conversion panics on it is not used. */
  function Expected(v: LuaValue): Value
    decreases v, 1
  {
    match v
    case LNil => Nil
    case LBool(b) => Bool(b)
    case LNumber(n) => Float(n)
    case LString(s) => Str(s)
    case LTable(_, _) =>
      if Len(v.arrayPart) == 0 then Map(ExpectedFields(v, 0, map[])) else List(ExpectedItems(v, 0))
    case LUserData(payload, _) =>
      (match payload
       case SaveData(_, ignoreNull) => Str(if ignoreNull then SaveAllowNullMarker else SaveMarker)
       case IgnoreData(ignoreNull) => Str(if ignoreNull then IgnoreAllowNullMarker else IgnoreMarker)
       case _ => Nil)
    case LFunction(_) => Nil
  }

  /** The elements of a table converted as a list, from slot j on. */
  function ExpectedItems(t: LuaValue, j: nat): seq<Value>
    requires t.LTable? && j <= SlotCount(t)
    decreases t, 0, SlotCount(t) - j
  {
    if j == SlotCount(t) then []
    else if SlotValue(t, j) == LNil then ExpectedItems(t, j + 1)
    else [Expected(SlotValue(t, j))] + ExpectedItems(t, j + 1)
  }

  /** A list's elements are the expected values of the slots ForEach
      visits, in ForEach order. */
  lemma {:induction false} ExpectedItemsAt(t: LuaValue, j: nat)
    requires t.LTable? && j <= SlotCount(t)
    decreases SlotCount(t) - j
    ensures |ExpectedItems(t, j)| == |Present(t, j)|
    ensures forall n :: 0 <= n < |Present(t, j)| ==> ExpectedItems(t, j)[n] == Expected(SlotValue(t, Present(t, j)[n]))
  {
    if j < SlotCount(t) {
      ExpectedItemsAt(t, j + 1);
      if SlotValue(t, j) != LNil {
        var r, p := ExpectedItems(t, j), Present(t, j);
        assert r == [Expected(SlotValue(t, j))] + ExpectedItems(t, j + 1);
        assert p == [j] + Present(t, j + 1);
        forall n | 0 <= n < |p| ensures r[n] == Expected(SlotValue(t, p[n])) {
          if n > 0 {
            assert r[n] == ExpectedItems(t, j + 1)[n - 1] && p[n] == Present(t, j + 1)[n - 1];
          }
        }
      }
    }
  }

  /** Slot i is visited and no later visited slot renders to the same
      key. */
  predicate LastOfKey(t: LuaValue, i: nat)
    requires t.LTable? && i < SlotCount(t)
  {
    && SlotValue(t, i) != LNil
    && forall i' :: i < i' < SlotCount(t) && SlotValue(t, i') != LNil ==> AsString(SlotKey(t, i')) != AsString(SlotKey(t, i))
  }

  /** The entries of a table converted as a map, added to m from slot j
      on. */
  function ExpectedFields(t: LuaValue, j: nat, m: map<string, Value>): map<string, Value>
    requires t.LTable? && j <= SlotCount(t)
    decreases t, 0, SlotCount(t) - j
  {
    if j == SlotCount(t) then m
    else if SlotValue(t, j) == LNil then ExpectedFields(t, j + 1, m)
    else ExpectedFields(t, j + 1, m[AsString(SlotKey(t, j)) := Expected(SlotValue(t, j))])
  }

  /** Some slot ForEach visits from j on renders to the key k. */
  predicate HasKeyFrom(t: LuaValue, j: nat, k: string)
    requires t.LTable? && j <= SlotCount(t)
  {
    exists i :: j <= i < SlotCount(t) && SlotValue(t, i) != LNil && AsString(SlotKey(t, i)) == k
  }

  /** A map's keys are those of m and those of the visited slots. */
  lemma {:induction false} ExpectedFieldsKeys(t: LuaValue, j: nat, m: map<string, Value>, k: string)
    requires t.LTable? && j <= SlotCount(t)
    decreases SlotCount(t) - j
    ensures k in ExpectedFields(t, j, m) <==> k in m || HasKeyFrom(t, j, k)
  {
    if j < SlotCount(t) {
      var m' := if SlotValue(t, j) == LNil then m else m[AsString(SlotKey(t, j)) := Expected(SlotValue(t, j))];
      ExpectedFieldsKeys(t, j + 1, m', k);
      if HasKeyFrom(t, j, k) && !(SlotValue(t, j) != LNil && AsString(SlotKey(t, j)) == k) {
        var i :| j <= i < SlotCount(t) && SlotValue(t, i) != LNil && AsString(SlotKey(t, i)) == k;
        assert HasKeyFrom(t, j + 1, k);
      }
    }
  }

  /** The key of the last visited slot holding it maps to that slot's
      expected value: a later key overwrites an earlier one. */
  lemma {:induction false} ExpectedFieldsLast(t: LuaValue, j: nat, m: map<string, Value>, i: nat)
    requires t.LTable? && j <= i < SlotCount(t) && LastOfKey(t, i)
    decreases SlotCount(t) - j
    ensures AsString(SlotKey(t, i)) in ExpectedFields(t, j, m)
    ensures ExpectedFields(t, j, m)[AsString(SlotKey(t, i))] == Expected(SlotValue(t, i))
  {
    var m' := if SlotValue(t, j) == LNil then m else m[AsString(SlotKey(t, j)) := Expected(SlotValue(t, j))];
    if j < i {
      ExpectedFieldsLast(t, j + 1, m', i);
    } else {
      ExpectedFieldsKept(t, j + 1, m', AsString(SlotKey(t, i)));
    }
  }

  /** A key of m that no visited slot renders to keeps its value. */
  lemma {:induction false} ExpectedFieldsKept(t: LuaValue, j: nat, m: map<string, Value>, k: string)
    requires t.LTable? && j <= SlotCount(t) && k in m && !HasKeyFrom(t, j, k)
    decreases SlotCount(t) - j
    ensures k in ExpectedFields(t, j, m) && ExpectedFields(t, j, m)[k] == m[k]
  {
    if j < SlotCount(t) {
      var m' := if SlotValue(t, j) == LNil then m else m[AsString(SlotKey(t, j)) := Expected(SlotValue(t, j))];
      assert !HasKeyFrom(t, j + 1, k);
      ExpectedFieldsKept(t, j + 1, m', k);
    }
  }

  /** A placeholder the conversion meets: the path it records and its
      data. */
  datatype Mark = Mark(path: string, data: Payload)

  /** The placeholders (Save and Ignore userdata) of v at `path` or below,
      in the order the conversion meets them, each with the path it is
      recorded at. */
  function Marks(path: string, v: LuaValue): seq<Mark>
    decreases v, 1
  {
    match v
    case LUserData(d, _) => if d.SaveData? || d.IgnoreData? then [Mark(path, d)] else []
    case LTable(_, _) => MarksFrom(path, v, 0)
    case _ => []
  }

  function MarksFrom(path: string, t: LuaValue, j: nat): seq<Mark>
    requires t.LTable? && j <= SlotCount(t)
    decreases t, 0, SlotCount(t) - j
  {
    if j == SlotCount(t) then []
    else if SlotValue(t, j) == LNil then MarksFrom(path, t, j + 1)
    else Marks(path + "." + Segment(t, j), SlotValue(t, j)) + MarksFrom(path, t, j + 1)
  }

  /** The option a placeholder appends: allowNull when its flag is set,
      notNull otherwise, both at exactly its path. */
  function MarkRule(m: Mark): Rule {
    if (m.data.SaveData? || m.data.IgnoreData?) && m.data.ignoreNull then AllowNull(m.path) else NotNull(m.path)
  }

  /** The accumulator after the placeholders ms recorded themselves, in
      order: each appends its option, and each Save sets its path to its
      name. */
  function Record(acc: Acc, ms: seq<Mark>): Acc
    decreases |ms|
  {
    if ms == [] then acc
    else
      var m := ms[0];
      var saved := if m.data.SaveData? then acc.toSave[m.path := m.data.name] else acc.toSave;
      Record(Acc(saved, acc.rules + [MarkRule(m)]), ms[1..])
  }

  /** The step the conversion takes into slot i: the key as a string in a
      map, the Lua index minus one in a list. */
  function StepOf(t: LuaValue, i: nat): Step
    requires t.LTable? && i < SlotCount(t)
  {
    if Len(t.arrayPart) == 0 then MapIndex(AsString(SlotKey(t, i)))
    else SliceIndex(AsIndex(SlotKey(t, i)) - 1)
  }

  /** The text a step adds to a path, without its leading ".". */
  function StepText(s: Step): string {
    if s.MapIndex? then s.key else Itoa(s.index)
  }

  /** v holds a Save or Ignore placeholder with payload d at the end of
      the steps: each step enters a slot ForEach visits. */
  predicate PlaceholderAt(v: LuaValue, steps: seq<Step>, d: Payload)
    decreases v
  {
    if steps == [] then v.LUserData? && v.payload == d && (d.SaveData? || d.IgnoreData?)
    else
      v.LTable? && exists i ::
        0 <= i < SlotCount(v) && SlotValue(v, i) != LNil
        && StepOf(v, i) == steps[0] && PlaceholderAt(SlotValue(v, i), steps[1..], d)
  }

  /** The path of a step sequence, read from its first step. */
  lemma {:induction false} ExactCons(s: Step, rest: seq<Step>)
    decreases |rest|
    ensures Exact([s] + rest) == "." + StepText(s) + Exact(rest)
  {
    if rest != [] {
      var init := rest[..|rest| - 1];
      assert ([s] + rest)[..|[s] + rest| - 1] == [s] + init;
      ExactCons(s, init);
    }
  }

  /** The path of the child in slot i, extended by rest, is the path of
      the step into slot i followed by rest. */
  lemma ChildPath(path: string, t: LuaValue, i: nat, rest: seq<Step>)
    requires t.LTable? && i < SlotCount(t)
    ensures path + "." + Segment(t, i) + Exact(rest) == path + Exact([StepOf(t, i)] + rest)
  {
    ExactCons(StepOf(t, i), rest);
    assert Segment(t, i) == StepText(StepOf(t, i));
  }

  lemma MarksFromHas(path: string, t: LuaValue, j: nat, i: nat, m: Mark)
    requires t.LTable? && j <= i < SlotCount(t) && SlotValue(t, i) != LNil
    requires m in Marks(path + "." + Segment(t, i), SlotValue(t, i))
    decreases i - j
    ensures m in MarksFrom(path, t, j)
  {
    if j < i {
      MarksFromHas(path, t, j + 1, i, m);
    }
  }

  /** Every placeholder of v is among the marks, recorded at its own path. */
  lemma {:induction false} PlaceholderMarked(path: string, v: LuaValue, steps: seq<Step>, d: Payload)
    requires PlaceholderAt(v, steps, d)
    decreases v
    ensures Mark(path + Exact(steps), d) in Marks(path, v)
  {
    if steps == [] {
      assert path + Exact(steps) == path;
    } else {
      var i :| 0 <= i < SlotCount(v) && SlotValue(v, i) != LNil
        && StepOf(v, i) == steps[0] && PlaceholderAt(SlotValue(v, i), steps[1..], d);
      PlaceholderMarked(path + "." + Segment(v, i), SlotValue(v, i), steps[1..], d);
      ChildPath(path, v, i, steps[1..]);
      assert [steps[0]] + steps[1..] == steps;
      MarksFromHas(path, v, 0, i, Mark(path + Exact(steps), d));
    }
  }

  lemma {:induction false} MarksFromWhich(path: string, t: LuaValue, j: nat, m: Mark) returns (i: nat)
    requires t.LTable? && j <= SlotCount(t) && m in MarksFrom(path, t, j)
    decreases SlotCount(t) - j
    ensures j <= i < SlotCount(t) && SlotValue(t, i) != LNil
    ensures m in Marks(path + "." + Segment(t, i), SlotValue(t, i))
  {
    if SlotValue(t, j) != LNil && m in Marks(path + "." + Segment(t, j), SlotValue(t, j)) {
      i := j;
    } else {
      i := MarksFromWhich(path, t, j + 1, m);
    }
  }

  /** Every mark comes from a placeholder of v, at the path of its steps. */
  lemma {:induction false} MarkPlaced(path: string, v: LuaValue, m: Mark) returns (steps: seq<Step>)
    requires m in Marks(path, v)
    decreases v
    ensures m.path == path + Exact(steps) && PlaceholderAt(v, steps, m.data)
  {
    if v.LTable? {
      var i := MarksFromWhich(path, v, 0, m);
      var rest := MarkPlaced(path + "." + Segment(v, i), SlotValue(v, i), m);
      steps := [StepOf(v, i)] + rest;
      ChildPath(path, v, i, rest);
      assert steps[1..] == rest;
    } else {
      steps := [];
      assert path + Exact(steps) == path;
    }
  }

  /** The options a sequence of placeholders appends, one each, in order. */
  function MarkRules(ms: seq<Mark>): (rs: seq<Rule>)
    ensures |rs| == |ms|
  {
    seq(|ms|, n requires 0 <= n < |ms| => MarkRule(ms[n]))
  }

  lemma {:induction false} RecordRules(acc: Acc, ms: seq<Mark>)
    decreases |ms|
    ensures Record(acc, ms).rules == acc.rules + MarkRules(ms)
  {
    if ms != [] {
      var m := ms[0];
      var saved := if m.data.SaveData? then acc.toSave[m.path := m.data.name] else acc.toSave;
      RecordRules(Acc(saved, acc.rules + [MarkRule(m)]), ms[1..]);
      assert [MarkRule(m)] + MarkRules(ms[1..]) == MarkRules(ms);
    }
  }

  /** Some Save placeholder of ms is recorded at k. */
  predicate SavedIn(ms: seq<Mark>, k: string) {
    exists n :: 0 <= n < |ms| && ms[n].data.SaveData? && ms[n].path == k
  }

  /** ms[n] is the last Save placeholder of ms recorded at its path. */
  predicate LastSave(ms: seq<Mark>, n: nat) {
    n < |ms| && ms[n].data.SaveData?
    && forall n' :: n < n' < |ms| && ms[n'].data.SaveData? ==> ms[n'].path != ms[n].path
  }

  /** The save entries: those of acc and one per path a Save is recorded at. */
  lemma {:induction false} RecordSavesKeys(acc: Acc, ms: seq<Mark>, k: string)
    decreases |ms|
    ensures k in Record(acc, ms).toSave <==> k in acc.toSave || SavedIn(ms, k)
  {
    if ms != [] {
      var m := ms[0];
      var saved := if m.data.SaveData? then acc.toSave[m.path := m.data.name] else acc.toSave;
      RecordSavesKeys(Acc(saved, acc.rules + [MarkRule(m)]), ms[1..], k);
      if SavedIn(ms[1..], k) {
        var n :| 0 <= n < |ms[1..]| && ms[1..][n].data.SaveData? && ms[1..][n].path == k;
        assert ms[n + 1] == ms[1..][n];
      }
      if SavedIn(ms, k) && !(m.data.SaveData? && m.path == k) {
        var n :| 0 <= n < |ms| && ms[n].data.SaveData? && ms[n].path == k;
        assert ms[1..][n - 1] == ms[n];
      }
    }
  }

  /** A path holds the name of the last Save recorded at it. */
  lemma {:induction false} RecordSavesLast(acc: Acc, ms: seq<Mark>, n: nat)
    requires LastSave(ms, n)
    decreases |ms|
    ensures ms[n].path in Record(acc, ms).toSave
    ensures Record(acc, ms).toSave[ms[n].path] == ms[n].data.name
  {
    var m := ms[0];
    var saved := if m.data.SaveData? then acc.toSave[m.path := m.data.name] else acc.toSave;
    var acc1 := Acc(saved, acc.rules + [MarkRule(m)]);
    if n > 0 {
      assert ms[1..][n - 1] == ms[n];
      assert LastSave(ms[1..], n - 1) by {
        forall n' | n - 1 < n' < |ms[1..]| && ms[1..][n'].data.SaveData?
          ensures ms[1..][n'].path != ms[1..][n - 1].path
        {
          assert ms[1..][n'] == ms[n' + 1];
        }
      }
      RecordSavesLast(acc1, ms[1..], n - 1);
    } else {
      assert !SavedIn(ms[1..], m.path) by {
        forall n' | 0 <= n' < |ms[1..]| && ms[1..][n'].data.SaveData?
          ensures ms[1..][n'].path != m.path
        {
          assert ms[1..][n'] == ms[n' + 1];
        }
      }
      RecordSavesKept(acc1, ms[1..], m.path);
    }
  }

  /** A save entry of acc at a path no Save is recorded at is kept. */
  lemma {:induction false} RecordSavesKept(acc: Acc, ms: seq<Mark>, k: string)
    requires k in acc.toSave && !SavedIn(ms, k)
    decreases |ms|
    ensures k in Record(acc, ms).toSave && Record(acc, ms).toSave[k] == acc.toSave[k]
  {
    if ms != [] {
      var m := ms[0];
      var saved := if m.data.SaveData? then acc.toSave[m.path := m.data.name] else acc.toSave;
      assert !SavedIn(ms[1..], k) by {
        forall n | 0 <= n < |ms[1..]| && ms[1..][n].data.SaveData?
          ensures ms[1..][n].path != k
        {
          assert ms[1..][n] == ms[n + 1];
        }
      }
      assert !(m.data.SaveData? && m.path == k) by {
        assert ms[0] == m;
      }
      RecordSavesKept(Acc(saved, acc.rules + [MarkRule(m)]), ms[1..], k);
    }
  }

  /** Every save entry names the last Save recorded at its path. */
  lemma RecordSavesFrom(ms: seq<Mark>, k: string) returns (n: nat)
    requires k in Record(Acc(map[], []), ms).toSave
    ensures LastSave(ms, n) && ms[n].path == k
    ensures Record(Acc(map[], []), ms).toSave[k] == ms[n].data.name
  {
    RecordSavesKeys(Acc(map[], []), ms, k);
    n :| 0 <= n < |ms| && ms[n].data.SaveData? && ms[n].path == k;
    while !LastSave(ms, n)
      invariant n < |ms| && ms[n].data.SaveData? && ms[n].path == k
      decreases |ms| - n
    {
      var later :| n < later < |ms| && ms[later].data.SaveData? && ms[later].path == k;
      n := later;
    }
    RecordSavesLast(Acc(map[], []), ms, n);
  }

  /** convertToCheck(path, v, toSave, opts). A table whose Len() is 0 becomes
      a map keyed by LVAsString of its keys, any other table a list in
      ForEach order; each placeholder records its path and appends one
      rule at that path. The result is the expected value of v and the
      accumulator with the placeholders of v recorded. */
  function Convert(path: string, v: LuaValue, acc: Acc): (r: Conversion)
    decreases v, 1
    ensures r.Err? <==> Unconvertible(v)
    ensures r.Ok? ==> r.value == (Expected(v), Record(acc, Marks(path, v)))
  {
    match v
    case LNil => Ok((Nil, acc))
    case LBool(b) => Ok((Bool(b), acc))
    case LNumber(n) => Ok((Float(n), acc))
    case LString(s) => Ok((Str(s), acc))
    case LTable(_, _) =>
      if Len(v.arrayPart) == 0 then ConvertMap(path, v, 0, map[], acc)
      else
        assert [] + ExpectedItems(v, 0) == ExpectedItems(v, 0);
        ConvertList(path, v, 0, [], acc)
    case LUserData(payload, _) =>
      (match payload
       case SaveData(name, ignoreNull) =>
         var saved := acc.toSave[path := name];
         assert [Mark(path, payload)][1..] == [];
         if ignoreNull then Ok((Str(SaveAllowNullMarker), Acc(saved, acc.rules + [AllowNull(path)])))
         else Ok((Str(SaveMarker), Acc(saved, acc.rules + [NotNull(path)])))
       case IgnoreData(ignoreNull) =>
         assert [Mark(path, payload)][1..] == [];
         if ignoreNull then Ok((Str(IgnoreAllowNullMarker), acc.(rules := acc.rules + [AllowNull(path)])))
         else Ok((Str(IgnoreMarker), acc.(rules := acc.rules + [NotNull(path)])))
       case NullData => Err(NullDataError)
       case ForeignData(typeName) => Err(UserDataPrefix + typeName))
    case LFunction(_) => Err(FunctionError)
  }

  /** The map branch: ForEach from slot j on, later keys overwriting
      earlier ones. */
  function ConvertMap(path: string, t: LuaValue, j: nat, m: map<string, Value>, acc: Acc): (r: Conversion)
    requires t.LTable? && Len(t.arrayPart) == 0 && j <= SlotCount(t)
    decreases t, 0, SlotCount(t) - j
    ensures r.Err? <==> UnconvertibleFrom(t, j)
    ensures r.Ok? ==> r.value == (Map(ExpectedFields(t, j, m)), Record(acc, MarksFrom(path, t, j)))
  {
    if j == SlotCount(t) then Ok((Map(m), acc))
    else
      UnconvertibleFromStep(t, j);
      var val := SlotValue(t, j);
      if val == LNil then ConvertMap(path, t, j + 1, m, acc)
      else
        var key := AsString(SlotKey(t, j));
        match Convert(path + "." + key, val, acc)
        case Err(e) => Err(e)
        case Ok((x, acc1)) =>
          RecordAppend(acc, Marks(path + "." + key, val), MarksFrom(path, t, j + 1));
          ConvertMap(path, t, j + 1, m[key := x], acc1)
  }

  /** The list branch: values appended in ForEach order; the path of each
      uses int(LVAsNumber(key)) - 1 as its index. */
  function ConvertList(path: string, t: LuaValue, j: nat, l: seq<Value>, acc: Acc): (r: Conversion)
    requires t.LTable? && Len(t.arrayPart) != 0 && j <= SlotCount(t)
    decreases t, 0, SlotCount(t) - j
    ensures r.Err? <==> UnconvertibleFrom(t, j)
    ensures r.Ok? ==> r.value == (List(l + ExpectedItems(t, j)), Record(acc, MarksFrom(path, t, j)))
  {
    if j == SlotCount(t) then
      assert l + [] == l;
      Ok((List(l), acc))
    else
      UnconvertibleFromStep(t, j);
      var val := SlotValue(t, j);
      if val == LNil then ConvertList(path, t, j + 1, l, acc)
      else
        var goIdx := AsIndex(SlotKey(t, j)) - 1;
        match Convert(path + "." + Itoa(goIdx), val, acc)
        case Err(e) => Err(e)
        case Ok((x, acc1)) =>
          RecordAppend(acc, Marks(path + "." + Itoa(goIdx), val), MarksFrom(path, t, j + 1));
          assert l + [x] + ExpectedItems(t, j + 1) == l + ([x] + ExpectedItems(t, j + 1));
          ConvertList(path, t, j + 1, l + [x], acc1)
  }

  /** Recording two runs of placeholders is recording their
      concatenation. */
  lemma {:induction false} RecordAppend(acc: Acc, a: seq<Mark>, b: seq<Mark>)
    decreases |a|
    ensures Record(acc, a + b) == Record(Record(acc, a), b)
  {
    if a != [] {
      var m := a[0];
      var saved := if m.data.SaveData? then acc.toSave[m.path := m.data.name] else acc.toSave;
      assert (a + b)[0] == m;
      assert (a + b)[1..] == a[1..] + b;
      RecordAppend(Acc(saved, acc.rules + [MarkRule(m)]), a[1..], b);
    } else {
      assert a + b == b;
    }
  }

  // -----------------------------------------------------------------------
  // Where a conversion writes

  /** `acc1` extends `acc` below `path`: the old rules come first, every new
      rule is an exact (non-wildcard) rule whose target starts with `path`,
      and every save entry outside `path` is kept as it was. */
  predicate Extends(acc: Acc, acc1: Acc, path: string) {
    && |acc.rules| <= |acc1.rules|
    && acc1.rules[..|acc.rules|] == acc.rules
    && (forall i :: |acc.rules| <= i < |acc1.rules| ==>
          HasPrefix(acc1.rules[i].target, path) && !acc1.rules[i].wildcard)
    && acc.toSave.Keys <= acc1.toSave.Keys
    && (forall k :: k in acc1.toSave && !HasPrefix(k, path) ==> k in acc.toSave && acc1.toSave[k] == acc.toSave[k])
  }

  lemma PrefixOfLonger(k: string, path: string, ext: string)
    requires HasPrefix(k, path + ext)
    ensures HasPrefix(k, path)
  {
    assert k[..|path|] == (k[..|path + ext|])[..|path|];
  }

  lemma ExtendsTrans(acc: Acc, acc1: Acc, acc2: Acc, path: string)
    requires Extends(acc, acc1, path) && Extends(acc1, acc2, path)
    ensures Extends(acc, acc2, path)
  {
    assert acc2.rules[..|acc.rules|] == (acc2.rules[..|acc1.rules|])[..|acc.rules|];
    forall i | |acc.rules| <= i < |acc2.rules|
      ensures HasPrefix(acc2.rules[i].target, path) && !acc2.rules[i].wildcard
    {
      if i < |acc1.rules| {
        assert acc2.rules[i] == acc1.rules[i];
      }
    }
  }

  /** Every placeholder of v is recorded at `path` or below it. */
  lemma {:induction false} MarksBelow(path: string, v: LuaValue, m: Mark)
    requires m in Marks(path, v)
    decreases v, 1
    ensures HasPrefix(m.path, path)
  {
    if v.LTable? {
      MarksFromBelow(path, v, 0, m);
    }
  }

  lemma {:induction false} MarksFromBelow(path: string, t: LuaValue, j: nat, m: Mark)
    requires t.LTable? && j <= SlotCount(t) && m in MarksFrom(path, t, j)
    decreases t, 0, SlotCount(t) - j
    ensures HasPrefix(m.path, path)
  {
    if SlotValue(t, j) != LNil && m in Marks(path + "." + Segment(t, j), SlotValue(t, j)) {
      var ext := "." + Segment(t, j);
      assert path + "." + Segment(t, j) == path + ext;
      MarksBelow(path + ext, SlotValue(t, j), m);
      PrefixOfLonger(m.path, path, ext);
    } else {
      MarksFromBelow(path, t, j + 1, m);
    }
  }

  /** Recording placeholders at `path` or below changes the accumulator
      only below `path`. */
  lemma {:induction false} RecordExtends(acc: Acc, ms: seq<Mark>, path: string)
    requires forall m :: m in ms ==> HasPrefix(m.path, path)
    decreases |ms|
    ensures Extends(acc, Record(acc, ms), path)
  {
    if ms == [] {
      assert acc.rules[..|acc.rules|] == acc.rules;
    } else {
      var m := ms[0];
      var saved := if m.data.SaveData? then acc.toSave[m.path := m.data.name] else acc.toSave;
      var acc1 := Acc(saved, acc.rules + [MarkRule(m)]);
      assert m in ms;
      assert Extends(acc, acc1, path) by {
        assert acc1.rules[..|acc.rules|] == acc.rules;
      }
      assert forall m' :: m' in ms[1..] ==> m' in ms;
      RecordExtends(acc1, ms[1..], path);
      ExtendsTrans(acc, acc1, Record(acc, ms), path);
    }
  }

  /** Converting the value at `path` only adds rules and save entries at
      `path` or below it: sibling placeholders never disturb each other. */
  lemma ConvertStaysBelow(path: string, v: LuaValue, acc: Acc)
    requires Convert(path, v, acc).Ok?
    ensures Extends(acc, Convert(path, v, acc).value.1, path)
  {
    forall m | m in Marks(path, v) ensures HasPrefix(m.path, path) {
      MarksBelow(path, v, m);
    }
    RecordExtends(acc, Marks(path, v), path);
  }

  // -----------------------------------------------------------------------
  // The path filter, the store walk and the check itself

  /** ignorePath(path)(p): renders the map and slice steps of p and compares
      the result with `path` (other kinds of step render to nothing and are
      not represented). */
  method IgnorePath(path: string, p: seq<Step>) returns (matched: bool)
    ensures matched <==> Applies(NotNull(path), p)
    ensures matched <==> Applies(AllowNull(path), p)
  {
    var s := "";
    for i := 0 to |p|
      invariant s == Exact(p[..i])
    {
      assert p[..i + 1][..i] == p[..i];
      match p[i]
      case MapIndex(k) =>
        s := s + "." + k;
      case SliceIndex(n) =>
        s := s + "." + Itoa(n);
    }
    assert p[..|p|] == p;
    matched := s == path;
  }

  /** What one appendStore call does. */
  datatype StoreResult = NotAMap | SaveCalled(key: string, value: Value) | StorePanicked(reason: string)

  /** appendStore(key, path, body, fn): nothing unless the response is a
      map; otherwise the walk of `path` ends in one call fn(key, value) or
      in a panic. */
  method AppendStore(key: string, path: string, body: Value) returns (r: StoreResult)
    ensures !body.Map? ==> r == NotAMap
    ensures body.Map? && Walk(body.fields, path).Found? ==> r == SaveCalled(key, Walk(body.fields, path).value)
    ensures body.Map? && Walk(body.fields, path).Stuck? ==> r == StorePanicked(Walk(body.fields, path).reason)
  {
    if !body.Map? {
      return NotAMap;
    }
    var found := Follow(body.fields, path);
    match found
    case Found(v) => r := SaveCalled(key, v);
    case Stuck(reason) => r := StorePanicked(reason);
  }

  /** One call of the save callback: SaveFunc(name, value). */
  datatype SaveCall = SaveCall(name: string, value: Value)

  /** How StdCheck ends: a panic during conversion, a raised Lua error
      carrying the diff, or the save calls made (in map iteration order),
      possibly cut short by a panic of the walk. */
  datatype CheckOutcome =
    | ConvertPanicked(reason: string)
    | Mismatch
    | Completed(calls: seq<SaveCall>, panicked: Option<string>)

  /** convertToCheck("", tbl, {}, nil). */
  function Prepare(tbl: LuaValue): (r: Conversion)
    ensures r.Err? <==> Unconvertible(tbl)
    ensures r.Ok? ==> r.value.0 == Expected(tbl)
  {
    Convert("", tbl, Acc(map[], []))
  }

  /** The option some placeholder of v appends: the one at its own path. */
  ghost predicate RuleOfPlaceholder(v: LuaValue, rule: Rule) {
    exists steps, d :: PlaceholderAt(v, steps, d) && rule == MarkRule(Mark(Exact(steps), d))
  }

  /** Some Save placeholder of v at path k carries the name. */
  ghost predicate SaveOfPlaceholder(v: LuaValue, k: string, name: string) {
    exists steps, d :: PlaceholderAt(v, steps, d) && d.SaveData? && Exact(steps) == k && d.name == name
  }

  /** What the conversion records, in both directions: every Save or
      Ignore placeholder of the expected table, at steps p, appends its
      option at exactly Exact(p), and every Save has a save entry at
      Exact(p); every option and every save entry comes from such a
      placeholder, a save entry naming a Save at its own path. */
  lemma PlaceholdersRecorded(tbl: LuaValue)
    requires Prepare(tbl).Ok?
    ensures forall steps, d :: PlaceholderAt(tbl, steps, d) ==>
      MarkRule(Mark(Exact(steps), d)) in Prepare(tbl).value.1.rules
      && (d.SaveData? ==> Exact(steps) in Prepare(tbl).value.1.toSave)
    ensures forall rule :: rule in Prepare(tbl).value.1.rules ==> RuleOfPlaceholder(tbl, rule)
    ensures forall k :: k in Prepare(tbl).value.1.toSave ==>
      SaveOfPlaceholder(tbl, k, Prepare(tbl).value.1.toSave[k])
  {
    var ms := Marks("", tbl);
    var acc := Prepare(tbl).value.1;
    assert acc == Record(Acc(map[], []), ms);
    RecordRules(Acc(map[], []), ms);
    assert acc.rules == MarkRules(ms);
    forall steps, d | PlaceholderAt(tbl, steps, d)
      ensures MarkRule(Mark(Exact(steps), d)) in acc.rules && (d.SaveData? ==> Exact(steps) in acc.toSave)
    {
      PlaceholderMarked("", tbl, steps, d);
      assert "" + Exact(steps) == Exact(steps);
      var n :| 0 <= n < |ms| && ms[n] == Mark(Exact(steps), d);
      assert MarkRules(ms)[n] == MarkRule(ms[n]);
      if d.SaveData? {
        RecordSavesKeys(Acc(map[], []), ms, Exact(steps));
      }
    }
    forall k | k in acc.toSave
      ensures SaveOfPlaceholder(tbl, k, acc.toSave[k])
    {
      var n := RecordSavesFrom(ms, k);
      var steps := MarkPlaced("", tbl, ms[n]);
      assert "" + Exact(steps) == Exact(steps);
    }
    forall rule | rule in acc.rules
      ensures RuleOfPlaceholder(tbl, rule)
    {
      var n :| 0 <= n < |MarkRules(ms)| && MarkRules(ms)[n] == rule;
      assert rule == MarkRule(ms[n]);
      var steps := MarkPlaced("", tbl, ms[n]);
      assert "" + Exact(steps) == Exact(steps);
      assert ms[n] == Mark(Exact(steps), ms[n].data);
      assert PlaceholderAt(tbl, steps, ms[n].data);
    }
  }

  /** In a list, the element in array slot j is entered by the 0-based
      step j: Lua's index j + 1 minus one. */
  lemma ListSlotStep(t: LuaValue, j: nat)
    requires t.LTable? && Len(t.arrayPart) != 0 && j < |t.arrayPart|
    ensures StepOf(t, j) == SliceIndex(j)
  {
  }

  /** StdCheck(L, tbl, b). The save paths are visited in an unspecified
      order (Go map iteration); `order` is the order this run took. */
  method StdCheck(tbl: LuaValue, b: Value) returns (out: CheckOutcome, ghost order: seq<string>)
    ensures out.ConvertPanicked? <==> Unconvertible(tbl)
    ensures Prepare(tbl).Ok? ==>
      var a, acc := Prepare(tbl).value.0, Prepare(tbl).value.1;
      && (out.Mismatch? <==> !Equal(acc.rules, a, b))
      && (out.Completed? && !b.Map? ==> out.calls == [] && out.panicked.None?)
      && (out.Completed? && b.Map? ==>
            && |order| == |out.calls|
            && (forall i, j :: 0 <= i < j < |order| ==> order[i] != order[j])
            && (forall i :: 0 <= i < |order| ==>
                  && order[i] in acc.toSave
                  && Walk(b.fields, order[i]) == Found(out.calls[i].value)
                  && out.calls[i].name == acc.toSave[order[i]])
            && (out.panicked.None? ==> forall path :: path in acc.toSave ==> path in order)
            && (out.panicked.Some? ==>
                  exists path :: path in acc.toSave && Walk(b.fields, path) == Stuck(out.panicked.value)))
  {
    order := [];
    var conv := Prepare(tbl);
    if conv.Err? {
      return ConvertPanicked(conv.error), order;
    }
    var (a, acc) := conv.value;
    if !Equal(acc.rules, a, b) {
      return Mismatch, order;
    }
    var calls, panicked;
    calls, panicked, order := SaveAll(acc.toSave, b);
    out := Completed(calls, panicked);
  }

  /** The calls made so far: one per path in `order`, each path once, each
      a found value saved under its name; none when the body is not a
      map. */
  predicate Saved(toSave: map<string, string>, b: Value, order: seq<string>, calls: seq<SaveCall>) {
    && |order| == |calls|
    && (!b.Map? ==> calls == [])
    && (forall i, j :: 0 <= i < j < |order| ==> order[i] != order[j])
    && (forall i :: 0 <= i < |order| ==> order[i] in toSave)
    && (b.Map? ==> forall i :: 0 <= i < |order| ==>
          Walk(b.fields, order[i]) == Found(calls[i].value) && calls[i].name == toSave[order[i]])
  }

  lemma SavedSnoc(toSave: map<string, string>, b: Value, order: seq<string>, calls: seq<SaveCall>, path: string, v: Value)
    requires Saved(toSave, b, order, calls) && b.Map?
    requires path in toSave && path !in order && Walk(b.fields, path) == Found(v)
    ensures Saved(toSave, b, order + [path], calls + [SaveCall(toSave[path], v)])
  {
    var order', calls' := order + [path], calls + [SaveCall(toSave[path], v)];
    forall i, j | 0 <= i < j < |order'|
      ensures order'[i] != order'[j]
    {
      if j == |order| {
        assert order'[i] == order[i] && order[i] in order;
      }
    }
  }

  /** The loop of StdCheck over the save paths, in Go map iteration order:
      `order` is the order this run took. */
  method SaveAll(toSave: map<string, string>, b: Value)
    returns (calls: seq<SaveCall>, panicked: Option<string>, ghost order: seq<string>)
    ensures Saved(toSave, b, order, calls)
    ensures !b.Map? ==> panicked.None?
    ensures b.Map? && panicked.None? ==> forall path :: path in toSave ==> path in order
    ensures b.Map? && panicked.Some? ==> exists path :: path in toSave && Walk(b.fields, path) == Stuck(panicked.value)
  {
    calls, order := [], [];
    var remaining := toSave.Keys;
    while remaining != {}
      invariant remaining <= toSave.Keys
      invariant Saved(toSave, b, order, calls)
      invariant forall i :: 0 <= i < |order| ==> order[i] !in remaining
      invariant b.Map? ==> forall path :: path in toSave && path !in remaining ==> path in order
      decreases |remaining|
    {
      var path :| path in remaining;
      var r := AppendStore(toSave[path], path, b);
      if r.StorePanicked? {
        return calls, Some(r.reason), order;
      } else if r.SaveCalled? {
        SavedSnoc(toSave, b, order, calls, path, r.value);
        calls := calls + [SaveCall(r.key, r.value)];
        order := order + [path];
      }
      remaining := remaining - {path};
    }
    panicked := None;
  }

  // -----------------------------------------------------------------------
  // Worked examples

  /** `{}` in Lua converts to an empty map, which does not match an empty
      JSON array: the dynamic types differ. */
  lemma EmptyTableIsNotEmptyList()
    ensures Prepare(LTable([], [])) == Ok((Map(map[]), Acc(map[], [])))
    ensures !Equal([], Map(map[]), List([]))
  {
  }

  /** A plain expected value differing from the response is a mismatch. */
  lemma StatusMismatch()
    ensures var expected := LTable([], [(LString("status"), LNumber(IntNumber(200)))]);
      && Prepare(expected) == Ok((Map(map["status" := Float(IntNumber(200))]), Acc(map[], [])))
      && !Equal([], Map(map["status" := Float(IntNumber(200))]), Map(map["status" := Float(IntNumber(404))]))
  {
    var expected := LTable([], [(LString("status"), LNumber(IntNumber(200)))]);
    assert SlotKey(expected, 0) == LString("status");
    assert ExpectedFields(expected, 1, map["status" := Float(IntNumber(200))]) == map["status" := Float(IntNumber(200))];
    assert Expected(expected) == Map(map["status" := Float(IntNumber(200))]);
    assert MarksFrom("", expected, 1) == [];
    assert Marks("", expected) == [];
    assert IntNumber(200).trunc != IntNumber(404).trunc;
    assert map["status" := Float(IntNumber(200))]["status"] != map["status" := Float(IntNumber(404))]["status"];
    NoRulesIsEquality([], Map(map["status" := Float(IntNumber(200))]), Map(map["status" := Float(IntNumber(404))]));
  }

  /** The expected table `{ a = { b = Save("x") } }`. */
  function NestedSave(addr: string): LuaValue {
    LTable([], [(LString("a"), LTable([], [(LString("b"), LUserData(SaveData("x", false), addr))]))])
  }

  /** It converts to a nested map holding the save marker, one save entry
      and one not-null rule, both at ".a.b". */
  lemma NestedSaveConverts(addr: string)
    ensures Prepare(NestedSave(addr))
         == Ok((Map(map["a" := Map(map["b" := Str(SaveMarker)])]), Acc(map[".a.b" := "x"], [NotNull(".a.b")])))
  {
    var expected := NestedSave(addr);
    var inner := LTable([], [(LString("b"), LUserData(SaveData("x", false), addr))]);
    assert SlotKey(expected, 0) == LString("a");
    assert SlotValue(expected, 0) == inner;
    assert SlotKey(inner, 0) == LString("b");
    var acc1 := Acc(map[".a.b" := "x"], [NotNull(".a.b")]);
    assert ".a" + "." + "b" == ".a.b";
    assert SlotValue(inner, 0) == LUserData(SaveData("x", false), addr);
    var leaf := Convert(".a.b", LUserData(SaveData("x", false), addr), Acc(map[], []));
    assert leaf.value.1.rules == [] + [NotNull(".a.b")] == acc1.rules;
    assert leaf == Ok((Str(SaveMarker), acc1));
    assert ConvertMap(".a", inner, 1, map["b" := Str(SaveMarker)], acc1) == Ok((Map(map["b" := Str(SaveMarker)]), acc1));
    assert ConvertMap(".a", inner, 0, map[], Acc(map[], [])) == Ok((Map(map["b" := Str(SaveMarker)]), acc1));
    assert Convert(".a", inner, Acc(map[], [])) == Ok((Map(map["b" := Str(SaveMarker)]), acc1));
    assert "" + "." + "a" == ".a";
    var outer := Map(map["a" := Map(map["b" := Str(SaveMarker)])]);
    assert ConvertMap("", expected, 1, map["a" := Map(map["b" := Str(SaveMarker)])], acc1) == Ok((outer, acc1));
    assert ConvertMap("", expected, 0, map[], Acc(map[], [])) == Ok((outer, acc1));
    assert Convert("", expected, Acc(map[], [])) == Ok((outer, acc1));
  }

  /** Against the response `{"a": {"b": v}}` the comparison passes exactly
      when v is not null. */
  lemma NestedSaveMatches(v: Value)
    ensures Equal([NotNull(".a.b")], Map(map["a" := Map(map["b" := Str(SaveMarker)])]), Map(map["a" := Map(map["b" := v])]))
        <==> v != Nil
  {
    var rules := [NotNull(".a.b")];
    var inner := Map(map["b" := Str(SaveMarker)]);
    var innerResponse := Map(map["b" := v]);
    InnerLevel(v);
    assert !Ignored(rules, []) && !Checked(rules, []);
    assert Exact([MapIndex("a")]) == ".a";
    assert [] + [MapIndex("a")] == [MapIndex("a")];
    assert !Ignored(rules, [MapIndex("a")]);
    assert EntryEqual(rules, [], "a", Map(map["a" := inner]), Map(map["a" := innerResponse])) <==> v != Nil;
    assert Structural(rules, [], Map(map["a" := inner]), Map(map["a" := innerResponse])) <==> v != Nil;
  }

  lemma InnerLevel(v: Value)
    ensures EqualAt([NotNull(".a.b")], [MapIndex("a")], Map(map["b" := Str(SaveMarker)]), Map(map["b" := v])) <==> v != Nil
  {
    var rules := [NotNull(".a.b")];
    var pa := [MapIndex("a")];
    var pb := [MapIndex("a"), MapIndex("b")];
    assert Exact(pa) == ".a";
    assert pa + [MapIndex("b")] == pb;
    assert Exact(pb) == ".a.b";
    assert rules[0].action == CheckNotNull && Applies(rules[0], pb);
    assert !Ignored(rules, pb);
    assert !Ignored(rules, pa) && !Checked(rules, pa);
    assert EntryEqual(rules, pa, "b", Map(map["b" := Str(SaveMarker)]), Map(map["b" := v])) <==> v != Nil;
  }

  /** `{ Save("x") }` is a list; its element's Lua key 1 becomes the
      0-based path ".0", where the save entry and the rule are recorded. */
  lemma ListSaveIsZeroBased(addr: string)
    ensures Prepare(LTable([LUserData(SaveData("x", false), addr)], []))
         == Ok((List([Str(SaveMarker)]), Acc(map[".0" := "x"], [NotNull(".0")])))
  {
    var save := LUserData(SaveData("x", false), addr);
    var t := LTable([save], []);
    assert Len(t.arrayPart) == 1;
    assert AsIndex(SlotKey(t, 0)) == 1;
    var seg := Itoa(0);
    assert seg == "0";
    var acc1 := Acc(map[".0" := "x"], [NotNull(".0")]);
    assert "" + "." + seg == ".0";
    assert map[][".0" := "x"] == acc1.toSave && [] + [NotNull(".0")] == acc1.rules;
    assert Convert(".0", save, Acc(map[], [])) == Ok((Str(SaveMarker), acc1));
    assert ExpectedItems(t, 0) == [Str(SaveMarker)];
    assert Expected(t) == List([Str(SaveMarker)]);
    assert Segment(t, 0) == "0";
    assert MarksFrom("", t, 1) == [];
    assert Marks(".0", save) == [Mark(".0", save.payload)];
    assert Marks("", t) == [Mark(".0", save.payload)] + [];
    assert Record(Acc(map[], []), [Mark(".0", save.payload)]) == acc1;
  }

  /** The walk of ".a.b" in `{"a": {"b": v}}` reaches v. */
  lemma NestedSaveWalks(v: Value)
    ensures Walk(map["a" := Map(map["b" := v])], ".a.b") == Found(v)
  {
    var response := map["a" := Map(map["b" := v])];
    var pb := [MapIndex("a"), MapIndex("b")];
    assert Exact([MapIndex("a")]) == ".a";
    assert Exact(pb) == ".a.b";
    AtoiRejects("a");
    AtoiRejects("b");
    WalkFindsValue(response, pb);
    assert At(Map(response), pb) == Some(v);
  }
}
