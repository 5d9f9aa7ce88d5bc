/** The Lua placeholder builtins of lua/spec/funcs.go: `Save(name,
    allowNull?)` and `Ignore(allowNull?)` return a userdata recording the
    request; `Null` is a userdata marker type. Argument checking follows
    gopher-lua's CheckString and OptBool. */
module Placeholders {
  import opened Wrappers
  import opened Strs
  import opened Values
  import opened Matcher
  import Check

  /** Argument n (1-based) of a call; missing arguments read as nil. */
  function Arg(args: seq<LuaValue>, n: nat): LuaValue
    requires n >= 1
  {
    if n <= |args| then args[n - 1] else LNil
  }

  /** LValueType.String(). */
  function TypeName(v: LuaValue): string {
    match v
    case LNil => "nil"
    case LBool(_) => "boolean"
    case LNumber(_) => "number"
    case LString(_) => "string"
    case LTable(_, _) => "table"
    case LUserData(_, _) => "userdata"
    case LFunction(_) => "function"
  }

  /** The message of LState.TypeError (the calling function's name, which
      gopher-lua inserts after "to", is not modelled). */
  function TypeError(n: nat, expected: string, got: LuaValue): string {
    "bad argument #" + Itoa(n) + " (" + expected + " expected, got " + TypeName(got) + ")"
  }

  /** LState.CheckString: a string, or a number as its text; anything else
      raises a type error. */
  function CheckString(args: seq<LuaValue>, n: nat): (r: Result<string, string>)
    requires n >= 1
    ensures r.Ok? <==> Arg(args, n).LString? || Arg(args, n).LNumber?
    ensures r.Ok? ==> r.value == AsString(Arg(args, n))
    ensures r.Err? ==> r.error == TypeError(n, "string", Arg(args, n))
  {
    match Arg(args, n)
    case LString(s) => Ok(s)
    case LNumber(x) => Ok(x.text)
    case v => Err(TypeError(n, "string", v))
  }

  /** LState.OptBool: nil gives the default, a boolean its value, anything
      else raises a type error. */
  function OptBool(args: seq<LuaValue>, n: nat, default: bool): (r: Result<bool, string>)
    requires n >= 1
    ensures r.Ok? <==> Arg(args, n).LNil? || Arg(args, n).LBool?
    ensures r.Ok? ==> r.value == (if Arg(args, n).LBool? then Arg(args, n).b else default)
  {
    match Arg(args, n)
    case LNil => Ok(default)
    case LBool(b) => Ok(b)
    case v => Err(TypeError(n, "boolean", v))
  }

  /** What a Go builtin does to the Lua stack: the values it pushes, or the
      Lua error it raises. */
  datatype CallResult = Returned(values: seq<LuaValue>) | Raised(message: string)

  /** Save(name, allowNull?): `addr` identifies the new userdata. */
  function Save(args: seq<LuaValue>, addr: string): (r: CallResult)
    ensures r.Returned? <==>
      (Arg(args, 1).LString? || Arg(args, 1).LNumber?) && (Arg(args, 2).LNil? || Arg(args, 2).LBool?)
    ensures r.Returned? ==>
      r.values == [LUserData(SaveData(AsString(Arg(args, 1)), Arg(args, 2) == LBool(true)), addr)]
  {
    match CheckString(args, 1)
    case Err(e) => Raised(e)
    case Ok(name) =>
      match OptBool(args, 2, false)
      case Err(e) => Raised(e)
      case Ok(ignoreNull) => Returned([LUserData(SaveData(name, ignoreNull), addr)])
  }

  /** Ignore(allowNull?). */
  function Ignore(args: seq<LuaValue>, addr: string): (r: CallResult)
    ensures r.Returned? <==> Arg(args, 1).LNil? || Arg(args, 1).LBool?
    ensures r.Returned? ==> r.values == [LUserData(IgnoreData(Arg(args, 1) == LBool(true)), addr)]
  {
    match OptBool(args, 1, false)
    case Err(e) => Raised(e)
    case Ok(ignoreNull) => Returned([LUserData(IgnoreData(ignoreNull), addr)])
  }

  // -----------------------------------------------------------------------
  // What the check makes of them

  /** The userdata Save returns, placed at `path` of an expected table,
      records the save name under `path` and adds one rule there: the value
      must be non-null, or is ignored when the second argument was true. */
  lemma SaveRecordsPath(args: seq<LuaValue>, addr: string, path: string, acc: Check.Acc)
    requires Save(args, addr).Returned?
    ensures var r := Check.Convert(path, Save(args, addr).values[0], acc);
      && r.Ok?
      && r.value.1.toSave == acc.toSave[path := AsString(Arg(args, 1))]
      && r.value.1.rules == acc.rules + [Rule(path, false, if Arg(args, 2) == LBool(true) then IgnoreValue else CheckNotNull)]
  {
  }

  /** Ignore records no save and adds one rule at `path`. */
  lemma IgnoreAddsRule(args: seq<LuaValue>, addr: string, path: string, acc: Check.Acc)
    requires Ignore(args, addr).Returned?
    ensures var r := Check.Convert(path, Ignore(args, addr).values[0], acc);
      && r.Ok?
      && r.value.1.toSave == acc.toSave
      && r.value.1.rules == acc.rules + [Rule(path, false, if Arg(args, 1) == LBool(true) then IgnoreValue else CheckNotNull)]
  {
  }

  /** `Ignore(true)` accepts anything, a missing map entry included, while
      `Ignore()` demands a present, non-null value. */
  lemma IgnoreVerdicts(path: seq<Step>, k: string, a: map<string, Value>, b: map<string, Value>)
    ensures EntryEqual([Check.AllowNull(Exact(path + [MapIndex(k)]))], path, k, Map(a), Map(b))
    ensures EntryEqual([Check.NotNull(Exact(path + [MapIndex(k)]))], path, k, Map(a), Map(b))
        <==> k in a && k in b && a[k] != Nil && b[k] != Nil
  {
    var p := path + [MapIndex(k)];
    var notNull := [Check.NotNull(Exact(p))];
    assert notNull[0].action == CheckNotNull && Applies(notNull[0], p);
    assert !Ignored(notNull, p);
    var allow := [Check.AllowNull(Exact(p))];
    assert allow[0].action == IgnoreValue && Applies(allow[0], p);
  }

  /** The `Null` marker cannot appear in an expected table: the conversion
      panics on it. */
  lemma NullMarkerPanics(path: string, addr: string, acc: Check.Acc)
    ensures Check.Convert(path, LUserData(NullData, addr), acc) == Err(Check.NullDataError)
  {
  }
}
