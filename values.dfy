/** The two dynamic value unions the harness moves between: the Lua
    interpreter's values (gopher-lua `LValue`) and the host's Go `any`
    values (what JSON decoding produces and the matcher compares). */
module Values {
  import opened Wrappers
  import opened Strs

  /** A float64, kept opaque. `text` is how Go prints it (the shortest
      round-trip form, so two numbers are equal exactly when their texts
      are) and `trunc` is `int(f)`, truncation toward zero. */
  datatype Number = Number(text: string, trunc: int)

  /** The float64 holding a whole number. */
  function IntNumber(i: int): (n: Number)
    ensures n.trunc == i
  {
    Number(Itoa(i), i)
  }

  /** What a Lua userdata carries: the placeholder records of
      lua/spec/funcs.go, the `Null` marker, or anything else. */
  datatype Payload =
    | SaveData(name: string, ignoreNull: bool)
    | IgnoreData(ignoreNull: bool)
    | NullData
    | ForeignData(typeName: string)

  /** A Lua value. A table keeps gopher-lua's two parts: the array part
      (keys 1, 2, ... in order, possibly holding nil) and the hash part
      (other keys, in the order ForEach visits them). Userdata and
      functions carry the text their String method prints (their
      address). */
  datatype LuaValue =
    | LNil
    | LBool(b: bool)
    | LNumber(n: Number)
    | LString(s: string)
    | LTable(arrayPart: seq<LuaValue>, hashPart: seq<(LuaValue, LuaValue)>)
    | LUserData(payload: Payload, addr: string)
    | LFunction(addr: string)

  /** LTable.Len: one past the last non-nil slot of the array part. */
  function Len(arr: seq<LuaValue>): (n: nat)
    ensures n <= |arr|
    ensures n > 0 ==> arr[n - 1] != LNil
    ensures forall i :: n <= i < |arr| ==> arr[i] == LNil
  {
    if arr == [] then 0
    else if arr[|arr| - 1] != LNil then |arr|
    else Len(arr[..|arr| - 1])
  }

  /** The number of slots LTable.ForEach visits: array part, then hash part. */
  function SlotCount(t: LuaValue): nat
    requires t.LTable?
  {
    |t.arrayPart| + |t.hashPart|
  }

  /** The key in slot `j` of the ForEach order: array slot j has key j + 1. */
  function SlotKey(t: LuaValue, j: nat): LuaValue
    requires t.LTable? && j < SlotCount(t)
  {
    if j < |t.arrayPart| then LNumber(IntNumber(j + 1)) else t.hashPart[j - |t.arrayPart|].0
  }

  /** The value in slot `j` of the ForEach order; ForEach skips slots whose
      value is nil. */
  function SlotValue(t: LuaValue, j: nat): (r: LuaValue)
    requires t.LTable? && j < SlotCount(t)
    ensures r < t
  {
    if j < |t.arrayPart| then t.arrayPart[j] else t.hashPart[j - |t.arrayPart|].1
  }

  /** The slots from j on that ForEach hands to its callback (those whose
      value is not nil), in ForEach order. */
  function Present(t: LuaValue, j: nat): (r: seq<nat>)
    requires t.LTable? && j <= SlotCount(t)
    decreases SlotCount(t) - j
    ensures forall n :: 0 <= n < |r| ==> j <= r[n] < SlotCount(t) && SlotValue(t, r[n]) != LNil
    ensures forall n, m :: 0 <= n < m < |r| ==> r[n] < r[m]
  {
    if j == SlotCount(t) then []
    else if SlotValue(t, j) == LNil then Present(t, j + 1)
    else [j] + Present(t, j + 1)
  }

  /** Every slot from j on whose value is not nil is listed. */
  lemma {:induction false} PresentHasEvery(t: LuaValue, j: nat, i: nat)
    requires t.LTable? && j <= i < SlotCount(t) && SlotValue(t, i) != LNil
    decreases i - j
    ensures i in Present(t, j)
  {
    if j < i {
      PresentHasEvery(t, j + 1, i);
    }
  }

  /** lua.LVAsString: strings as they are, numbers as Go prints them,
      anything else as "". */
  function AsString(v: LuaValue): string {
    match v
    case LString(s) => s
    case LNumber(n) => n.text
    case _ => ""
  }

  /** int(lua.LVAsNumber(v)): numbers truncated, numeric strings parsed,
      anything else 0. Only decimal integer strings are recognised. */
  function AsIndex(v: LuaValue): (i: int)
    ensures v.LString? && Atoi(v.s).None? ==> i == 0
    ensures !v.LNumber? && !v.LString? ==> i == 0
  {
    match v
    case LNumber(n) => n.trunc
    case LString(s) => Atoi(s).GetOr(0)
    case _ => 0
  }

  /** A Go `any` value: what encoding/json produces (nil, bool, float64,
      string, []any, map[string]any), plus Go `int` and `map[any]any`. */
  datatype Value =
    | Nil
    | Bool(b: bool)
    | Int(i: int)
    | Float(n: Number)
    | Str(s: string)
    | List(items: seq<Value>)
    | Map(fields: map<string, Value>)
    | AnyMap(entries: map<Value, Value>)
}
