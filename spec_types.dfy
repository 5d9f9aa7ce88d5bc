/** The annotations of the runner specifications (lua/spec/interfaces.go):
    argument types and their Lua type strings, arguments, functions and
    the LuaLS stub text a function writes into a shared builder. */
module SpecTypes {
  import opened Wrappers
  import opened Strs

  // -----------------------------------------------------------------------
  // Argument types

  /** An ArgumentType. `Basic` is ArgumentTypeA, an int whose values 0 to 3
      name string, number, boolean and table. */
  datatype ArgType =
    | Basic(code: int)
    | Metatable(name: string)
    | ArrayOf(elem: ArgType)
    | TableLiteral(fields: seq<Field>)
    | Enum(values: seq<string>)

  /** ArgumentTypeTableLiteralField. */
  datatype Field = Field(name: string, ftype: ArgType)

  const StringType: ArgType := Basic(0)
  const NumberType: ArgType := Basic(1)
  const BooleanType: ArgType := Basic(2)
  const TableType: ArgType := Basic(3)

  const UnknownType := "unknown type: "
  const PanicPrefix := "%!s(PANIC=String method: "

  /** The panic of t.String(): only ArgumentTypeA outside its four values
      panics. */
  function TypePanic(t: ArgType): Option<string> {
    if t.Basic? && !(0 <= t.code <= 3) then Some("unknown type: " + Itoa(t.code)) else None
  }

  function BasicName(code: int): string {
    if code == 0 then "string"
    else if code == 1 then "number"
    else if code == 2 then "boolean"
    else if code == 3 then "table"
    else ""
  }

  /** t.String() where it does not panic. */
  function TypeString(t: ArgType): (r: string)
    decreases t, 0
    ensures t.Basic? ==> (r == "" <==> TypePanic(t).Some?)
    ensures t.ArrayOf? ==> HasSuffix(r, "[]")
    ensures t.TableLiteral? ==> |r| >= 2 && r[0] == '{' && r[|r| - 1] == '}'
  {
    match t
    case Basic(c) => BasicName(c)
    case Metatable(n) => n
    case ArrayOf(e) => Formatted(e) + "[]"
    case TableLiteral(fs) =>
      "{" + Join(seq(|fs|, i requires 0 <= i < |fs| => fs[i].name + ": " + Formatted(fs[i].ftype)), ", ") + "}"
    case Enum(vs) => Join(seq(|vs|, i requires 0 <= i < |vs| => Quote(vs[i])), " | ")
  }

  /** What fmt's %s prints for t: fmt recovers a panic of the String
      method and prints it in place of the text. */
  function Formatted(t: ArgType): string
    decreases t, 1
  {
    match TypePanic(t)
    case Some(m) => PanicPrefix + m + ")"
    case None => TypeString(t)
  }

  function TypeStrings(ts: seq<ArgType>): seq<string> {
    if ts == [] then [] else TypeStrings(ts[..|ts| - 1]) + [TypeString(ts[|ts| - 1])]
  }

  lemma TypeStringsSnoc(ts: seq<ArgType>, i: nat)
    requires i < |ts|
    ensures TypeStrings(ts[..i + 1]) == TypeStrings(ts[..i]) + [TypeString(ts[i])]
  {
    assert ts[..i + 1][..i] == ts[..i];
  }

  // -----------------------------------------------------------------------
  // The first panic of a sequence of String calls

  function OrElse(a: Option<string>, b: Option<string>): Option<string> {
    if a.Some? then a else b
  }

  /** The first Some of f over xs, in order. */
  function FirstSome<T>(xs: seq<T>, f: T -> Option<string>): Option<string> {
    if xs == [] then None else OrElse(FirstSome(xs[..|xs| - 1], f), f(xs[|xs| - 1]))
  }

  /** FirstSome is None exactly when every element gives None, and
      otherwise the value of the first element that gives Some. */
  lemma {:induction false} FirstSomeIsFirst<T>(xs: seq<T>, f: T -> Option<string>)
    ensures FirstSome(xs, f).None? <==> forall i :: 0 <= i < |xs| ==> f(xs[i]).None?
    ensures FirstSome(xs, f).Some? ==>
      exists i :: 0 <= i < |xs| && f(xs[i]) == FirstSome(xs, f) && forall j :: 0 <= j < i ==> f(xs[j]).None?
  {
    if xs != [] {
      var init := xs[..|xs| - 1];
      FirstSomeIsFirst(init, f);
      assert forall i :: 0 <= i < |init| ==> init[i] == xs[i];
      if FirstSome(init, f).Some? {
        var i :| 0 <= i < |init| && f(init[i]) == FirstSome(init, f) && forall j :: 0 <= j < i ==> f(init[j]).None?;
        assert f(xs[i]) == FirstSome(xs, f);
      }
    }
  }

  /** A Some found in a prefix is the Some of the whole sequence. */
  lemma {:induction false} FirstSomePrefix<T>(xs: seq<T>, k: nat, f: T -> Option<string>)
    requires k <= |xs| && FirstSome(xs[..k], f).Some?
    decreases |xs|
    ensures FirstSome(xs, f) == FirstSome(xs[..k], f)
  {
    if k < |xs| {
      var init := xs[..|xs| - 1];
      assert init[..k] == xs[..k];
      FirstSomePrefix(init, k, f);
    } else {
      assert xs[..k] == xs;
    }
  }

  /** One more element after a prefix without Some. */
  lemma FirstSomeSnoc<T>(xs: seq<T>, i: nat, f: T -> Option<string>)
    requires i < |xs|
    ensures FirstSome(xs[..i + 1], f) == OrElse(FirstSome(xs[..i], f), f(xs[i]))
  {
    assert xs[..i + 1][..i] == xs[..i];
  }

  /** The panic of calling String on each type in order. */
  function FirstPanic(ts: seq<ArgType>): Option<string> {
    FirstSome(ts, TypePanic)
  }

  // -----------------------------------------------------------------------
  // Arguments and functions

  /** Argument: a name ending in "?" is optional, "..." is variadic. */
  datatype Argument = Argument(name: string, types: seq<ArgType>, doc: string)

  /** Argument.String where no type panics: "name: t1|t2|...". */
  function ArgumentText(a: Argument): string {
    a.name + ": " + Join(TypeStrings(a.types), "|")
  }

  /** Argument.String. */
  function ArgumentString(a: Argument): (r: Result<string, string>) {
    match FirstPanic(a.types)
    case Some(m) => Err(m)
    case None => Ok(ArgumentText(a))
  }

  function ArgTexts(args: seq<Argument>): seq<string> {
    if args == [] then [] else ArgTexts(args[..|args| - 1]) + [ArgumentText(args[|args| - 1])]
  }

  lemma ArgTextsSnoc(args: seq<Argument>, i: nat)
    requires i < |args|
    ensures ArgTexts(args[..i + 1]) == ArgTexts(args[..i]) + [ArgumentText(args[i])]
  {
    assert args[..i + 1][..i] == args[..i];
  }

  function ArgPanic(a: Argument): Option<string> {
    FirstPanic(a.types)
  }

  /** The panic of rendering every argument's types in order. */
  function ArgsPanic(args: seq<Argument>): Option<string> {
    FirstSome(args, ArgPanic)
  }

  /** Function; `isMethod` and `overload` are the unexported fields. */
  datatype Function = Function(name: string, args: seq<Argument>, doc: string, returnTypes: seq<ArgType>,
                               isMethod: bool, overload: Option<Function>)

  /** The panic of rendering the argument types, then the return types. */
  function SignaturePanic(f: Function): Option<string> {
    OrElse(ArgsPanic(f.args), FirstPanic(f.returnTypes))
  }

  /** The panic WriteTo meets first: in the @param lines, the @return line
      or the overload. */
  function FunctionPanic(f: Function): Option<string> {
    OrElse(SignaturePanic(f), if f.overload.Some? then SignaturePanic(f.overload.value) else None)
  }

  /** The line WriteOverloadTo writes (without its newline). */
  function OverloadLine(f: Function, scope: string): string {
    "---@overload " + OverloadType(f, scope)
  }

  /** The function type of an overload: "self: scope" before the arguments,
      the return types after ": ", separated by ", ". */
  function OverloadType(f: Function, scope: string): string {
    var head := "fun(" + Join(["self: " + scope] + ArgTexts(f.args), ", ") + ")";
    if f.returnTypes == [] then head else head + ": " + Join(TypeStrings(f.returnTypes), ", ")
  }

  function ParamLine(a: Argument): string {
    "---@param " + a.name + " " + Join(TypeStrings(a.types), "|")
  }

  function ParamLines(args: seq<Argument>): seq<string> {
    if args == [] then [] else ParamLines(args[..|args| - 1]) + [ParamLine(args[|args| - 1])]
  }

  function ReturnLines(returnTypes: seq<ArgType>): seq<string> {
    if returnTypes == [] then [] else ["---@return " + Join(TypeStrings(returnTypes), "|")]
  }

  function OverloadLines(overload: Option<Function>, scope: string): seq<string> {
    match overload
    case None => []
    case Some(o) => [OverloadLine(o, scope)]
  }

  /** The argument names of the signature: every trailing "?" removed. */
  function ParamNames(args: seq<Argument>): (r: seq<string>)
    ensures |r| == |args|
  {
    if args == [] then [] else ParamNames(args[..|args| - 1]) + [TrimRightChar(args[|args| - 1].name, '?')]
  }

  lemma ParamNamesSnoc(args: seq<Argument>, i: nat)
    requires i < |args|
    ensures ParamNames(args[..i + 1]) == ParamNames(args[..i]) + [TrimRightChar(args[i].name, '?')]
  {
    assert args[..i + 1][..i] == args[..i];
  }

  /** The separator between scope and name: ":" for methods. */
  function ScopeSep(isMethod: bool): string {
    if isMethod then ":" else "."
  }

  function Header(f: Function, scope: string): string {
    "function " + scope + ScopeSep(f.isMethod) + f.name + "(" + Join(ParamNames(f.args), ", ") + ")"
  }

  /** The literal the stub returns for its first return type. */
  function DefaultReturn(t: ArgType): string {
    match t
    case Basic(c) => if c == 0 then "\"\"" else if c == 1 then "0" else if c == 2 then "false" else if c == 3 then "{}" else ""
    case TableLiteral(_) => "{}"
    case ArrayOf(_) => "{}"
    case Metatable(_) => "{}"
    case Enum(_) => ""
  }

  function ReturnStmt(returnTypes: seq<ArgType>): seq<string> {
    if returnTypes == [] then [] else ["  return " + DefaultReturn(returnTypes[0])]
  }

  function PrintLine(name: string): string {
    "  print(\"" + name + "\")"
  }

  /** The lines Function.WriteTo writes, in order. */
  function FunctionLines(f: Function, scope: string): seq<string> {
    ["--- " + f.doc] + ParamLines(f.args) + ReturnLines(f.returnTypes) + OverloadLines(f.overload, scope)
      + [Header(f, scope)] + BodyLines(f)
  }

  /** The print line, the return statement and "end" with an empty line. */
  function BodyLines(f: Function): seq<string> {
    [PrintLine(f.name)] + ReturnStmt(f.returnTypes) + ["end", ""]
  }

  function FunctionText(f: Function, scope: string): string {
    Unlines(FunctionLines(f, scope))
  }

  // -----------------------------------------------------------------------
  // The builder and the writers

  /** strings.Builder. */
  class Builder {
    var text: string

    constructor ()
      ensures text == ""
    {
      text := "";
    }

    method Write(s: string)
      modifies this
      ensures text == old(text) + s
    {
      text := text + s;
    }
  }

  /** The types of one annotation, separated by `sep`, each by its String
      method; a panic stops the writing. */
  method WriteTypes(sb: Builder, ts: seq<ArgType>, sep: string) returns (panicked: Option<string>)
    modifies sb
    ensures panicked == FirstPanic(ts)
    ensures panicked.None? ==> sb.text == old(sb.text) + Join(TypeStrings(ts), sep)
  {
    for i := 0 to |ts|
      invariant FirstPanic(ts[..i]).None?
      invariant sb.text == old(sb.text) + Join(TypeStrings(ts[..i]), sep)
    {
      FirstSomeSnoc(ts, i, TypePanic);
      TypeStringsSnoc(ts, i);
      ghost var done := Join(TypeStrings(ts[..i]), sep);
      if i != 0 {
        sb.Write(sep);
      }
      var p := TypePanic(ts[i]);
      if p.Some? {
        FirstSomePrefix(ts, i + 1, TypePanic);
        return p;
      }
      sb.Write(TypeString(ts[i]));
      if i != 0 {
        JoinSnoc(TypeStrings(ts[..i]), TypeString(ts[i]), sep);
        ConcatAssoc(old(sb.text), done, sep);
        ConcatAssoc(old(sb.text), done + sep, TypeString(ts[i]));
      }
    }
    assert ts[..|ts|] == ts;
    return None;
  }

  /** One @param line. */
  method WriteParam(sb: Builder, a: Argument) returns (panicked: Option<string>)
    modifies sb
    ensures panicked == ArgPanic(a)
    ensures panicked.None? ==> sb.text == old(sb.text) + ParamLine(a) + "\n"
  {
    sb.Write("---@param " + a.name + " ");
    panicked := WriteTypes(sb, a.types, "|");
    if panicked.None? {
      ConcatAssoc(old(sb.text), "---@param " + a.name + " ", Join(TypeStrings(a.types), "|"));
      sb.Write("\n");
    }
  }

  lemma ParamLinesSnoc(args: seq<Argument>, i: nat)
    requires i < |args|
    ensures Unlines(ParamLines(args[..i + 1])) == Unlines(ParamLines(args[..i])) + ParamLine(args[i]) + "\n"
  {
    assert args[..i + 1][..i] == args[..i];
    UnlinesSnoc(ParamLines(args[..i]), ParamLine(args[i]));
  }

  /** Rendering one more argument after a prefix that does not panic. */
  lemma ArgsPanicStep(args: seq<Argument>, i: nat)
    requires i < |args| && ArgsPanic(args[..i]).None?
    ensures ArgPanic(args[i]).Some? ==> ArgsPanic(args) == ArgPanic(args[i])
    ensures ArgPanic(args[i]).None? ==> ArgsPanic(args[..i + 1]).None?
  {
    FirstSomeSnoc(args, i, ArgPanic);
    if ArgPanic(args[i]).Some? {
      FirstSomePrefix(args, i + 1, ArgPanic);
    }
  }

  /** The @param lines. */
  method WriteParams(sb: Builder, args: seq<Argument>) returns (panicked: Option<string>)
    modifies sb
    ensures panicked == ArgsPanic(args)
    ensures panicked.None? ==> sb.text == old(sb.text) + Unlines(ParamLines(args))
  {
    for i := 0 to |args|
      invariant ArgsPanic(args[..i]).None?
      invariant sb.text == old(sb.text) + Unlines(ParamLines(args[..i]))
    {
      ParamLinesSnoc(args, i);
      ArgsPanicStep(args, i);
      ghost var done := Unlines(ParamLines(args[..i]));
      var p := WriteParam(sb, args[i]);
      if p.Some? {
        return p;
      }
      ConcatAssoc(old(sb.text), done, ParamLine(args[i]));
      ConcatAssoc(old(sb.text), done + ParamLine(args[i]), "\n");
    }
    assert args[..|args|] == args;
    return None;
  }

  /** The @return line, written only when there are return types. */
  method WriteReturns(sb: Builder, returnTypes: seq<ArgType>) returns (panicked: Option<string>)
    modifies sb
    ensures panicked == FirstPanic(returnTypes)
    ensures panicked.None? ==> sb.text == old(sb.text) + Unlines(ReturnLines(returnTypes))
  {
    if |returnTypes| > 0 {
      sb.Write("---@return ");
      panicked := WriteTypes(sb, returnTypes, "|");
      if panicked.Some? {
        return;
      }
      var types := Join(TypeStrings(returnTypes), "|");
      ConcatAssoc(old(sb.text), "---@return ", types);
      sb.Write("\n");
      UnlinesSnoc([], "---@return " + types);
      assert [] + ["---@return " + types] == ReturnLines(returnTypes);
      ConcatAssoc(old(sb.text), "---@return " + types, "\n");
    } else {
      panicked := None;
    }
  }

  /** The argument strings of an overload, after "self: scope". */
  method OverloadArgs(f: Function, scope: string) returns (args: seq<string>, panicked: Option<string>)
    ensures panicked == ArgsPanic(f.args)
    ensures panicked.None? ==> args == ["self: " + scope] + ArgTexts(f.args)
  {
    args := ["self: " + scope];
    for i := 0 to |f.args|
      invariant ArgsPanic(f.args[..i]).None?
      invariant args == ["self: " + scope] + ArgTexts(f.args[..i])
    {
      ArgsPanicStep(f.args, i);
      ArgTextsSnoc(f.args, i);
      var s := ArgumentString(f.args[i]);
      if s.Err? {
        return args, Some(s.error);
      }
      args := args + [s.value];
    }
    assert f.args[..|f.args|] == f.args;
    return args, None;
  }

  /** The return strings of an overload. */
  method OverloadReturns(f: Function) returns (returnTexts: seq<string>, panicked: Option<string>)
    ensures panicked == FirstPanic(f.returnTypes)
    ensures panicked.None? ==> returnTexts == TypeStrings(f.returnTypes)
  {
    returnTexts := [];
    for i := 0 to |f.returnTypes|
      invariant FirstPanic(f.returnTypes[..i]).None?
      invariant returnTexts == TypeStrings(f.returnTypes[..i])
    {
      FirstSomeSnoc(f.returnTypes, i, TypePanic);
      TypeStringsSnoc(f.returnTypes, i);
      var p := TypePanic(f.returnTypes[i]);
      if p.Some? {
        FirstSomePrefix(f.returnTypes, i + 1, TypePanic);
        return returnTexts, p;
      }
      returnTexts := returnTexts + [TypeString(f.returnTypes[i])];
    }
    assert f.returnTypes[..|f.returnTypes|] == f.returnTypes;
    return returnTexts, None;
  }

  /** Function.WriteOverloadTo: the argument and return strings are
      collected first, so a panic leaves the builder as it was. */
  method WriteOverloadTo(sb: Builder, f: Function, scope: string) returns (panicked: Option<string>)
    modifies sb
    ensures panicked == SignaturePanic(f)
    ensures panicked.None? ==> sb.text == old(sb.text) + OverloadLine(f, scope) + "\n"
    ensures panicked.Some? ==> sb.text == old(sb.text)
  {
    var args, p := OverloadArgs(f, scope);
    if p.Some? {
      return p;
    }
    var returnTexts, q := OverloadReturns(f);
    if q.Some? {
      return q;
    }
    var ret := "fun(" + Join(args, ", ") + ")";
    if |returnTexts| > 0 {
      ret := ret + ": " + Join(returnTexts, ", ");
    }
    sb.Write("---@overload ");
    sb.Write(ret + "\n");
    assert ret == OverloadType(f, scope);
    ConcatAssoc(old(sb.text), "---@overload ", ret);
    ConcatAssoc(old(sb.text) + "---@overload ", ret, "\n");
    return None;
  }

  /** The argument names of the signature, separated by ", ". */
  method WriteParamNames(sb: Builder, args: seq<Argument>)
    modifies sb
    ensures sb.text == old(sb.text) + Join(ParamNames(args), ", ")
  {
    for i := 0 to |args|
      invariant sb.text == old(sb.text) + Join(ParamNames(args[..i]), ", ")
    {
      var name := TrimRightChar(args[i].name, '?');
      ParamNamesSnoc(args, i);
      ghost var done := Join(ParamNames(args[..i]), ", ");
      if i != 0 {
        sb.Write(", ");
        JoinSnoc(ParamNames(args[..i]), name, ", ");
        ConcatAssoc(old(sb.text), done, ", ");
        ConcatAssoc(old(sb.text), done + ", ", name);
      }
      sb.Write(name);
    }
    assert args[..|args|] == args;
  }

  /** The "function scope.name(a, b)" line: names with every trailing "?"
      removed. */
  method WriteHeader(sb: Builder, f: Function, scope: string)
    modifies sb
    ensures sb.text == old(sb.text) + (Header(f, scope) + "\n")
  {
    sb.Write("function " + scope);
    if f.isMethod {
      sb.Write(":");
    } else {
      sb.Write(".");
    }
    sb.Write(f.name + "(");
    WriteParamNames(sb, f.args);
    sb.Write(")\n");
    HeaderText(old(sb.text), f, scope);
  }

  lemma HeaderText(t: string, f: Function, scope: string)
    ensures t + ("function " + scope) + ScopeSep(f.isMethod) + (f.name + "(") + Join(ParamNames(f.args), ", ") + ")\n"
         == t + (Header(f, scope) + "\n")
  {
    var a, b, c, d := "function " + scope, ScopeSep(f.isMethod), f.name + "(", Join(ParamNames(f.args), ", ");
    ConcatAssoc(t, a, b);
    ConcatAssoc(t, a + b, c);
    ConcatAssoc(t, a + b + c, d);
    ConcatAssoc(a + b, f.name, "(");
    ConcatAssoc(t + (a + b + c + d), ")", "\n");
    ConcatAssoc(t, a + b + c + d + ")", "\n");
  }

  /** The text after the header: the print line, the return statement and
      "end" with an empty line. */
  function BodyText(f: Function): string {
    PrintLine(f.name) + "\n"
      + (if f.returnTypes == [] then "" else "  return " + DefaultReturn(f.returnTypes[0]) + "\n")
      + "end\n\n"
  }

  /** The print line and the return statement of the stub body. */
  method WriteBody(sb: Builder, f: Function)
    modifies sb
    ensures sb.text == old(sb.text) + BodyText(f)
  {
    sb.Write("  print(\"" + f.name + "\")\n");
    ghost var printed := sb.text;
    if |f.returnTypes| > 0 {
      sb.Write("  return ");
      match f.returnTypes[0] {
        case Basic(c) =>
          if c == 0 {
            sb.Write("\"\"");
          } else if c == 1 {
            sb.Write("0");
          } else if c == 2 {
            sb.Write("false");
          } else if c == 3 {
            sb.Write("{}");
          }
        case TableLiteral(_) => sb.Write("{}");
        case ArrayOf(_) => sb.Write("{}");
        case Metatable(_) => sb.Write("{}");
        case Enum(_) =>
      }
      sb.Write("\n");
      ConcatAssoc(printed, "  return ", DefaultReturn(f.returnTypes[0]));
      ConcatAssoc(printed, "  return " + DefaultReturn(f.returnTypes[0]), "\n");
    }
    ghost var returned := sb.text;
    sb.Write("end\n\n");
    BodyTextSteps(old(sb.text), f, returned);
  }

  lemma BodyTextSteps(t: string, f: Function, returned: string)
    requires returned == t + ("  print(\"" + f.name + "\")\n")
      + (if f.returnTypes == [] then "" else "  return " + DefaultReturn(f.returnTypes[0]) + "\n")
    ensures returned + "end\n\n" == t + BodyText(f)
  {
    var p := "  print(\"" + f.name + "\")\n";
    var r := if f.returnTypes == [] then "" else "  return " + DefaultReturn(f.returnTypes[0]) + "\n";
    assert p == PrintLine(f.name) + "\n" by {
      ConcatAssoc("  print(\"" + f.name, "\")", "\n");
    }
    ConcatAssoc(t, p, r);
    ConcatAssoc(t, p + r, "end\n\n");
  }

  /** The body text is the last lines of FunctionLines. */
  lemma BodyTextLines(f: Function)
    ensures BodyText(f) == Unlines(BodyLines(f))
  {
    var p := PrintLine(f.name);
    var mid := ReturnStmt(f.returnTypes);
    var e, empty := "end", "";
    var tail := [e, empty];
    assert BodyLines(f) == [p] + mid + tail;
    UnlinesAppend([p] + mid, tail);
    UnlinesAppend([p], mid);
    UnlinesOne(p);
    UnlinesSnoc([e], empty);
    UnlinesOne(e);
    assert [e] + [empty] == tail;
    if mid != [] {
      UnlinesOne(mid[0]);
      assert [mid[0]] == mid;
    }
    var r := if f.returnTypes == [] then "" else "  return " + DefaultReturn(f.returnTypes[0]) + "\n";
    assert Unlines(mid) == r;
    assert Unlines(tail) == e + "\n" + empty + "\n";
    ConcatAssoc(p + "\n", r, "end\n\n");
  }

  /** Function.WriteTo. */
  method WriteTo(sb: Builder, f: Function, scope: string) returns (panicked: Option<string>)
    modifies sb
    ensures panicked == FunctionPanic(f)
    ensures panicked.None? ==> sb.text == old(sb.text) + FunctionText(f, scope)
  {
    sb.Write("--- " + f.doc + "\n");
    panicked := WriteParams(sb, f.args);
    if panicked.Some? {
      return;
    }
    panicked := WriteReturns(sb, f.returnTypes);
    if panicked.Some? {
      return;
    }
    ghost var beforeOverload := sb.text;
    if f.overload.Some? {
      panicked := WriteOverloadTo(sb, f.overload.value, scope);
      if panicked.Some? {
        return;
      }
      UnlinesSnoc([], OverloadLine(f.overload.value, scope));
      assert [] + [OverloadLine(f.overload.value, scope)] == OverloadLines(f.overload, scope);
      assert sb.text == beforeOverload + Unlines(OverloadLines(f.overload, scope));
    } else {
      assert sb.text == beforeOverload + Unlines(OverloadLines(f.overload, scope));
    }
    WriteHeader(sb, f, scope);
    WriteBody(sb, f);
    FunctionTextParts(f, scope);
    ConcatSix(old(sb.text), "--- " + f.doc + "\n", Unlines(ParamLines(f.args)), Unlines(ReturnLines(f.returnTypes)),
              Unlines(OverloadLines(f.overload, scope)), Header(f, scope) + "\n", BodyText(f));
  }

  lemma ConcatSix(t: string, a: string, b: string, c: string, d: string, e: string, g: string)
    ensures t + a + b + c + d + e + g == t + (a + b + c + d + e + g)
  {
    ConcatAssoc(t, a, b);
    ConcatAssoc(t, a + b, c);
    ConcatAssoc(t, a + b + c, d);
    ConcatAssoc(t, a + b + c + d, e);
    ConcatAssoc(t, a + b + c + d + e, g);
  }

  lemma UnlinesSix(a: seq<string>, b: seq<string>, c: seq<string>, d: seq<string>, e: seq<string>, g: seq<string>)
    ensures Unlines(a + b + c + d + e + g)
         == Unlines(a) + Unlines(b) + Unlines(c) + Unlines(d) + Unlines(e) + Unlines(g)
  {
    UnlinesAppend(a + b + c + d + e, g);
    UnlinesAppend(a + b + c + d, e);
    UnlinesAppend(a + b + c, d);
    UnlinesAppend(a + b, c);
    UnlinesAppend(a, b);
  }

  /** FunctionText as the concatenation of the parts WriteTo writes. */
  lemma FunctionTextParts(f: Function, scope: string)
    ensures FunctionText(f, scope) ==
      ("--- " + f.doc + "\n") + Unlines(ParamLines(f.args)) + Unlines(ReturnLines(f.returnTypes))
      + Unlines(OverloadLines(f.overload, scope)) + (Header(f, scope) + "\n") + BodyText(f)
  {
    UnlinesSix(["--- " + f.doc], ParamLines(f.args), ReturnLines(f.returnTypes), OverloadLines(f.overload, scope),
               [Header(f, scope)], BodyLines(f));
    UnlinesOne("--- " + f.doc);
    UnlinesOne(Header(f, scope));
    BodyTextLines(f);
  }

  // -----------------------------------------------------------------------
  // Properties of the rendering

  /** Argument.String panics exactly when one of the types is an
      ArgumentTypeA outside its four values, with the message of the first
      such type; otherwise it is the annotation text. */
  lemma ArgumentPanicsOnUnknownCode(a: Argument)
    ensures ArgumentString(a).Err? <==>
      exists i :: 0 <= i < |a.types| && a.types[i].Basic? && !(0 <= a.types[i].code <= 3)
    ensures ArgumentString(a).Err? ==>
      exists i :: 0 <= i < |a.types| && a.types[i].Basic?
        && ArgumentString(a).error == UnknownType + Itoa(a.types[i].code)
        && forall j :: 0 <= j < i ==> !a.types[j].Basic? || 0 <= a.types[j].code <= 3
    ensures ArgumentString(a).Ok? ==> ArgumentString(a).value == a.name + ": " + Join(TypeStrings(a.types), "|")
  {
    FirstSomeIsFirst(a.types, TypePanic);
    if FirstPanic(a.types).Some? {
      var i :| 0 <= i < |a.types| && TypePanic(a.types[i]) == FirstPanic(a.types)
        && forall j :: 0 <= j < i ==> TypePanic(a.types[j]).None?;
      assert a.types[i].Basic?;
    } else {
      forall i | 0 <= i < |a.types|
        ensures !(a.types[i].Basic? && !(0 <= a.types[i].code <= 3))
      {
        assert TypePanic(a.types[i]).None?;
      }
    }
  }

  /** An unknown ArgumentTypeA inside an array type does not panic: fmt
      prints the panic in place of the element type. */
  lemma NestedUnknownCodeIsPrinted(code: int)
    requires !(0 <= code <= 3)
    ensures TypePanic(ArrayOf(Basic(code))).None?
    ensures TypeString(ArrayOf(Basic(code))) == PanicPrefix + UnknownType + Itoa(code) + ")[]"
  {
    var m := UnknownType + Itoa(code);
    assert TypePanic(Basic(code)) == Some(m);
    assert Formatted(Basic(code)) == PanicPrefix + m + ")";
    assert TypeString(ArrayOf(Basic(code))) == Formatted(Basic(code)) + "[]";
  }

  lemma {:induction false} ParamLinesAt(args: seq<Argument>)
    ensures |ParamLines(args)| == |args|
    ensures forall i :: 0 <= i < |args| ==> ParamLines(args)[i] == ParamLine(args[i])
  {
    if args != [] {
      var init := args[..|args| - 1];
      ParamLinesAt(init);
      assert forall i :: 0 <= i < |init| ==> init[i] == args[i];
    }
  }

  lemma {:induction false} ParamNamesAt(args: seq<Argument>)
    ensures |ParamNames(args)| == |args|
    ensures forall i :: 0 <= i < |args| ==> ParamNames(args)[i] == TrimRightChar(args[i].name, '?')
  {
    if args != [] {
      var init := args[..|args| - 1];
      ParamNamesAt(init);
      assert forall i :: 0 <= i < |init| ==> init[i] == args[i];
    }
  }

  /** The stub of a function, line by line: the doc line, one @param line
      per argument in order, the @return line when there are return types,
      the @overload line when there is an overload, the header, the print
      line, the return statement when there are return types, "end" and an
      empty line. */
  lemma FunctionLayout(f: Function, scope: string)
    ensures var lines := FunctionLines(f, scope);
      var n := |f.args|;
      var r := if f.returnTypes == [] then 0 else 1;
      var o := if f.overload.Some? then 1 else 0;
      && |lines| == n + 2 * r + o + 5
      && lines[0] == "--- " + f.doc
      && (forall i :: 0 <= i < n ==> lines[1 + i] == ParamLine(f.args[i]))
      && (r == 1 ==> lines[1 + n] == "---@return " + Join(TypeStrings(f.returnTypes), "|"))
      && (o == 1 ==> lines[1 + n + r] == OverloadLine(f.overload.value, scope))
      && lines[1 + n + r + o] == Header(f, scope)
      && lines[2 + n + r + o] == PrintLine(f.name)
      && (r == 1 ==> lines[3 + n + r + o] == "  return " + DefaultReturn(f.returnTypes[0]))
      && lines[|lines| - 2] == "end" && lines[|lines| - 1] == ""
  {
    var head := ["--- " + f.doc] + ParamLines(f.args) + ReturnLines(f.returnTypes) + OverloadLines(f.overload, scope);
    var body := [Header(f, scope)] + BodyLines(f);
    assert FunctionLines(f, scope) == head + body;
    HeadLayout(f, scope);
    BodyLayout(f, scope);
  }

  /** The doc line, then one @param line per argument, then the @return
      line when there are return types. */
  lemma DocLayout(f: Function)
    ensures var head := ["--- " + f.doc] + ParamLines(f.args) + ReturnLines(f.returnTypes);
      var n := |f.args|;
      var r := if f.returnTypes == [] then 0 else 1;
      && |head| == 1 + n + r
      && head[0] == "--- " + f.doc
      && (forall i :: 0 <= i < n ==> head[1 + i] == ParamLine(f.args[i]))
      && (r == 1 ==> head[1 + n] == "---@return " + Join(TypeStrings(f.returnTypes), "|"))
  {
    ParamLinesAt(f.args);
    var ps := ParamLines(f.args);
    var rs := ReturnLines(f.returnTypes);
    var head := ["--- " + f.doc] + ps + rs;
    assert forall i :: 0 <= i < |ps| ==> head[1 + i] == ps[i];
    if rs != [] {
      assert head[1 + |ps|] == rs[0];
    }
  }

  lemma HeadLayout(f: Function, scope: string)
    ensures var head := ["--- " + f.doc] + ParamLines(f.args) + ReturnLines(f.returnTypes) + OverloadLines(f.overload, scope);
      var n := |f.args|;
      var r := if f.returnTypes == [] then 0 else 1;
      var o := if f.overload.Some? then 1 else 0;
      && |head| == 1 + n + r + o
      && head[0] == "--- " + f.doc
      && (forall i :: 0 <= i < n ==> head[1 + i] == ParamLine(f.args[i]))
      && (r == 1 ==> head[1 + n] == "---@return " + Join(TypeStrings(f.returnTypes), "|"))
      && (o == 1 ==> head[1 + n + r] == OverloadLine(f.overload.value, scope))
  {
    DocLayout(f);
    var doc := ["--- " + f.doc] + ParamLines(f.args) + ReturnLines(f.returnTypes);
    var os := OverloadLines(f.overload, scope);
    var head := doc + os;
    assert forall i :: 0 <= i < |doc| ==> head[i] == doc[i];
    if os != [] {
      assert head[|doc|] == os[0];
    }
  }

  lemma BodyLayout(f: Function, scope: string)
    ensures var body := [Header(f, scope)] + BodyLines(f);
      var r := if f.returnTypes == [] then 0 else 1;
      && |body| == r + 4
      && body[0] == Header(f, scope)
      && body[1] == PrintLine(f.name)
      && (r == 1 ==> body[2] == "  return " + DefaultReturn(f.returnTypes[0]))
      && body[|body| - 2] == "end" && body[|body| - 1] == ""
  {
  }

  /** The text WriteTo writes splits at its newlines into exactly the lines
      of FunctionLines, when no piece of them holds a newline. */
  lemma FunctionTextLines(f: Function, scope: string)
    requires forall i :: 0 <= i < |FunctionLines(f, scope)| ==> NoNewline(FunctionLines(f, scope)[i])
    ensures Split(FunctionText(f, scope), "\n") == FunctionLines(f, scope) + [""]
  {
    SplitUnlines(FunctionLines(f, scope));
  }

  /** The header lists the argument names in order, each with every
      trailing "?" (the optional marker) removed and nothing else. */
  lemma HeaderNamesStripped(args: seq<Argument>, i: int)
    requires 0 <= i < |args|
    ensures var n := ParamNames(args)[i]; var name := args[i].name;
      && |n| <= |name| && name[..|n|] == n
      && (forall k :: |n| <= k < |name| ==> name[k] == '?')
      && (n == [] || n[|n| - 1] != '?')
  {
    ParamNamesAt(args);
    var n := ParamNames(args)[i];
    assert n == TrimRightChar(args[i].name, '?');
    assert args[i].name[..|n|] == n;
  }

  // -----------------------------------------------------------------------
  // Type metatables

  /** A *Function shared with the caller: Typemetatable.String renames it. */
  class FunctionBox {
    var fn: Function

    constructor (f: Function)
      ensures fn == f
    {
      fn := f;
    }
  }

  /** TypemetatableGetSet: a property with a getter, a setter or both. */
  datatype GetSet = GetSet(name: string, doc: string, setArguments: seq<Argument>, getReturns: seq<ArgType>)

  /** Typemetatable. */
  datatype Typemetatable = Typemetatable(name: string, init: Option<FunctionBox>, getSet: seq<GetSet>,
                                         methods: seq<Function>)

  /** The constructor stub: the Init function renamed "new", returning the
      metatable. */
  function InitFunction(f: Function, typeName: string): Function {
    f.(name := "new", returnTypes := [Metatable(typeName)])
  }

  /** The function written for a get/set pair, if any: the getter, with the
      setter as its overload, or the setter alone. */
  function GetSetFunction(g: GetSet): Option<Function> {
    if g.getReturns == [] && g.setArguments == [] then None
    else
      var setFunc := if g.setArguments != [] then Some(Function(g.name, g.setArguments, g.doc, [], true, None)) else None;
      if g.getReturns != [] then Some(Function(g.name, [], g.doc, g.getReturns, true, setFunc))
      else setFunc
  }

  function GetSetFunctions(gs: seq<GetSet>): seq<Function> {
    if gs == [] then []
    else
      GetSetFunctions(gs[..|gs| - 1])
        + (match GetSetFunction(gs[|gs| - 1]) case None => [] case Some(f) => [f])
  }

  /** The copy of a method that Typemetatable.String writes. */
  function AsMethod(m: Function): Function {
    m.(isMethod := true)
  }

  function MethodFunctions(ms: seq<Function>): seq<Function> {
    if ms == [] then [] else MethodFunctions(ms[..|ms| - 1]) + [AsMethod(ms[|ms| - 1])]
  }

  /** The stubs of several functions, one after the other. */
  function FunctionsText(fs: seq<Function>, scope: string): string {
    if fs == [] then "" else FunctionsText(fs[..|fs| - 1], scope) + FunctionText(fs[|fs| - 1], scope)
  }

  function FunctionsPanic(fs: seq<Function>): Option<string> {
    FirstSome(fs, FunctionPanic)
  }

  lemma FunctionsSnoc(fs: seq<Function>, f: Function, scope: string)
    ensures FunctionsText(fs + [f], scope) == FunctionsText(fs, scope) + FunctionText(f, scope)
    ensures FunctionsPanic(fs + [f]) == OrElse(FunctionsPanic(fs), FunctionPanic(f))
  {
    assert (fs + [f])[..|fs|] == fs;
  }

  lemma {:induction false} FirstSomeAppend<T>(a: seq<T>, b: seq<T>, f: T -> Option<string>)
    decreases |b|
    ensures FirstSome(a + b, f) == OrElse(FirstSome(a, f), FirstSome(b, f))
  {
    if b == [] {
      assert a + b == a;
    } else {
      var bi := b[..|b| - 1];
      assert (a + b)[..|a + b| - 1] == a + bi;
      FirstSomeAppend(a, bi, f);
    }
  }

  lemma {:induction false} GetSetFunctionsAppend(a: seq<GetSet>, b: seq<GetSet>)
    decreases |b|
    ensures GetSetFunctions(a + b) == GetSetFunctions(a) + GetSetFunctions(b)
  {
    if b == [] {
      assert a + b == a;
    } else {
      var bi := b[..|b| - 1];
      assert (a + b)[..|a + b| - 1] == a + bi;
      GetSetFunctionsAppend(a, bi);
    }
  }

  lemma GetSetFunctionsSplit(gs: seq<GetSet>, i: nat)
    requires i <= |gs|
    ensures GetSetFunctions(gs) == GetSetFunctions(gs[..i]) + GetSetFunctions(gs[i..])
  {
    var a, b := gs[..i], gs[i..];
    assert a + b == gs;
    GetSetFunctionsAppend(a, b);
  }

  lemma {:induction false} MethodFunctionsAppend(a: seq<Function>, b: seq<Function>)
    decreases |b|
    ensures MethodFunctions(a + b) == MethodFunctions(a) + MethodFunctions(b)
  {
    if b == [] {
      assert a + b == a;
    } else {
      var bi := b[..|b| - 1];
      assert (a + b)[..|a + b| - 1] == a + bi;
      MethodFunctionsAppend(a, bi);
    }
  }

  /** A panic met while writing one more function after a prefix without
      panic is the first panic of all the functions. */
  lemma PanicInPrefix(done: seq<Function>, f: Function, rest: seq<Function>)
    requires FunctionsPanic(done).None? && FunctionPanic(f).Some?
    ensures FunctionsPanic(done + [f] + rest) == FunctionPanic(f)
  {
    FirstSomeAppend(done + [f], rest, FunctionPanic);
    FunctionsSnoc(done, f, "");
  }

  function OptionList(o: Option<Function>): seq<Function> {
    match o
    case None => []
    case Some(f) => [f]
  }

  lemma GetSetsSnoc(gs: seq<GetSet>, i: nat)
    requires i < |gs|
    ensures GetSetFunctions(gs[..i + 1]) == GetSetFunctions(gs[..i]) + OptionList(GetSetFunction(gs[i]))
  {
    assert gs[..i + 1][..i] == gs[..i];
  }

  /** A panicking get/set function after a prefix without panic is the
      first panic of all the get/set functions. */
  lemma GetSetsPanic(gs: seq<GetSet>, i: nat, f: Function)
    requires i < |gs| && FunctionsPanic(GetSetFunctions(gs[..i])).None?
    requires GetSetFunction(gs[i]) == Some(f) && FunctionPanic(f).Some?
    ensures FunctionsPanic(GetSetFunctions(gs)) == FunctionPanic(f)
  {
    var done := GetSetFunctions(gs[..i]);
    var head := GetSetFunctions(gs[..i + 1]);
    var rest := GetSetFunctions(gs[i + 1..]);
    GetSetsSnoc(gs, i);
    assert head == done + [f];
    GetSetFunctionsSplit(gs, i + 1);
    assert GetSetFunctions(gs) == head + rest;
    PanicInPrefix(done, f, rest);
  }

  /** One more get/set pair after a prefix that does not panic. */
  lemma GetSetsStep(gs: seq<GetSet>, i: nat, scope: string)
    requires i < |gs| && FunctionsPanic(GetSetFunctions(gs[..i])).None?
    ensures GetSetFunctions(gs[..i + 1]) == GetSetFunctions(gs[..i]) + OptionList(GetSetFunction(gs[i]))
    ensures GetSetFunction(gs[i]).None? ==> GetSetFunctions(gs[..i + 1]) == GetSetFunctions(gs[..i])
    ensures GetSetFunction(gs[i]).Some? ==> var f := GetSetFunction(gs[i]).value;
      && (FunctionPanic(f).Some? ==> FunctionsPanic(GetSetFunctions(gs)) == FunctionPanic(f))
      && (FunctionPanic(f).None? ==> FunctionsPanic(GetSetFunctions(gs[..i + 1])).None?)
      && FunctionsText(GetSetFunctions(gs[..i + 1]), scope)
         == FunctionsText(GetSetFunctions(gs[..i]), scope) + FunctionText(f, scope)
  {
    GetSetsSnoc(gs, i);
    var done := GetSetFunctions(gs[..i]);
    match GetSetFunction(gs[i]) {
      case Some(f) =>
        FunctionsSnoc(done, f, scope);
        if FunctionPanic(f).Some? {
          GetSetsPanic(gs, i, f);
        }
      case None =>
        assert done + [] == done;
    }
  }

  /** The get/set loop of Typemetatable.String. */
  method WriteGetSets(sb: Builder, gs: seq<GetSet>, scope: string) returns (panicked: Option<string>)
    modifies sb
    ensures panicked == FunctionsPanic(GetSetFunctions(gs))
    ensures panicked.None? ==> sb.text == old(sb.text) + FunctionsText(GetSetFunctions(gs), scope)
  {
    for i := 0 to |gs|
      invariant FunctionsPanic(GetSetFunctions(gs[..i])).None?
      invariant sb.text == old(sb.text) + FunctionsText(GetSetFunctions(gs[..i]), scope)
    {
      var g := gs[i];
      GetSetsStep(gs, i, scope);
      if |g.getReturns| == 0 && |g.setArguments| == 0 {
        continue;
      }
      var setFunc: Option<Function> := None;
      if |g.setArguments| > 0 {
        setFunc := Some(Function(g.name, g.setArguments, g.doc, [], true, None));
      }
      var fn: Function;
      if |g.getReturns| > 0 {
        fn := Function(g.name, [], g.doc, g.getReturns, true, setFunc);
      } else {
        fn := setFunc.value;
      }
      assert fn == GetSetFunction(g).value;
      ghost var done := FunctionsText(GetSetFunctions(gs[..i]), scope);
      var p := WriteTo(sb, fn, scope);
      if p.Some? {
        return p;
      }
      ConcatAssoc(old(sb.text), done, FunctionText(fn, scope));
    }
    assert gs[..|gs|] == gs;
    return None;
  }

  lemma MethodFunctionsSnoc(ms: seq<Function>, i: nat)
    requires i < |ms|
    ensures MethodFunctions(ms[..i + 1]) == MethodFunctions(ms[..i]) + [AsMethod(ms[i])]
  {
    assert ms[..i + 1][..i] == ms[..i];
  }

  /** One more method after a prefix that does not panic. */
  lemma MethodsStep(ms: seq<Function>, i: nat, scope: string)
    requires i < |ms| && FunctionsPanic(MethodFunctions(ms[..i])).None?
    ensures var f := AsMethod(ms[i]);
      && (FunctionPanic(f).Some? ==> FunctionsPanic(MethodFunctions(ms)) == FunctionPanic(f))
      && (FunctionPanic(f).None? ==> FunctionsPanic(MethodFunctions(ms[..i + 1])).None?)
      && FunctionsText(MethodFunctions(ms[..i + 1]), scope)
         == FunctionsText(MethodFunctions(ms[..i]), scope) + FunctionText(f, scope)
  {
    var f := AsMethod(ms[i]);
    var done := MethodFunctions(ms[..i]);
    MethodFunctionsSnoc(ms, i);
    FunctionsSnoc(done, f, scope);
    if FunctionPanic(f).Some? {
      var rest := MethodFunctions(ms[i + 1..]);
      MethodFunctionsAppend(ms[..i + 1], ms[i + 1..]);
      assert ms[..i + 1] + ms[i + 1..] == ms;
      PanicInPrefix(done, f, rest);
    }
  }

  /** The methods loop of Typemetatable.String: each method is written as a
      method (with ":"), from a copy. */
  method WriteMethods(sb: Builder, ms: seq<Function>, scope: string) returns (panicked: Option<string>)
    modifies sb
    ensures panicked == FunctionsPanic(MethodFunctions(ms))
    ensures panicked.None? ==> sb.text == old(sb.text) + FunctionsText(MethodFunctions(ms), scope)
  {
    for i := 0 to |ms|
      invariant FunctionsPanic(MethodFunctions(ms[..i])).None?
      invariant sb.text == old(sb.text) + FunctionsText(MethodFunctions(ms[..i]), scope)
    {
      var m := ms[i];
      m := m.(isMethod := true);
      MethodsStep(ms, i, scope);
      ghost var done := FunctionsText(MethodFunctions(ms[..i]), scope);
      var p := WriteTo(sb, m, scope);
      if p.Some? {
        return p;
      }
      ConcatAssoc(old(sb.text), done, FunctionText(m, scope));
    }
    assert ms[..|ms|] == ms;
    return None;
  }

  /** The functions Typemetatable.String writes, in order. */
  function MetatableFunctions(typeName: string, init: Option<Function>, gs: seq<GetSet>, ms: seq<Function>): seq<Function> {
    OptionList(if init.Some? then Some(InitFunction(init.value, typeName)) else None)
      + GetSetFunctions(gs) + MethodFunctions(ms)
  }

  function ClassHeader(typeName: string): string {
    "---@class " + typeName + "\n" + typeName + " = {}\n"
  }

  /** The text of Typemetatable.String. */
  function MetatableText(typeName: string, init: Option<Function>, gs: seq<GetSet>, ms: seq<Function>): string {
    ClassHeader(typeName) + FunctionsText(MetatableFunctions(typeName, init, gs, ms), typeName)
  }

  lemma {:induction false} FunctionsTextAppend(a: seq<Function>, b: seq<Function>, scope: string)
    decreases |b|
    ensures FunctionsText(a + b, scope) == FunctionsText(a, scope) + FunctionsText(b, scope)
  {
    if b == [] {
      assert a + b == a;
    } else {
      var bi := b[..|b| - 1];
      assert (a + b)[..|a + b| - 1] == a + bi;
      FunctionsTextAppend(a, bi, scope);
      ConcatAssoc(FunctionsText(a, scope), FunctionsText(bi, scope), FunctionText(b[|b| - 1], scope));
    }
  }

  lemma FunctionsOne(f: Function, scope: string)
    ensures FunctionsText([f], scope) == FunctionText(f, scope)
    ensures FunctionsPanic([f]) == FunctionPanic(f)
  {
    FunctionsSnoc([], f, scope);
    assert [] + [f] == [f];
  }

  /** Typemetatable.String: the Init function, shared with the caller, is
      renamed "new" and made to return the metatable before it is written. */
  method MetatableString(t: Typemetatable) returns (s: string, panicked: Option<string>)
    modifies if t.init.Some? then {t.init.value} else {}
    ensures t.init.Some? ==> t.init.value.fn == InitFunction(old(t.init.value.fn), t.name)
    ensures var init := if t.init.Some? then Some(old(t.init.value.fn)) else None;
      && panicked == FunctionsPanic(MetatableFunctions(t.name, init, t.getSet, t.methods))
      && (panicked.None? ==> s == MetatableText(t.name, init, t.getSet, t.methods))
  {
    ghost var init := if t.init.Some? then Some(t.init.value.fn) else None;
    ghost var gets := GetSetFunctions(t.getSet);
    ghost var methods := MethodFunctions(t.methods);
    var sb := new Builder();
    sb.Write("---@class ");
    sb.Write(t.name);
    sb.Write("\n");
    sb.Write(t.name);
    sb.Write(" = {}\n");
    ghost var head := sb.text;
    assert head == ClassHeader(t.name) by {
      assert "" + "---@class " == "---@class ";
    }
    ghost var initList: seq<Function> := [];
    if t.init.Some? {
      var box := t.init.value;
      box.fn := box.fn.(name := "new", returnTypes := [Metatable(t.name)]);
      initList := [box.fn];
      FunctionsOne(box.fn, t.name);
      panicked := WriteTo(sb, box.fn, t.name);
      if panicked.Some? {
        MetatableParts(head, initList, gets, methods, t.name);
        return "", panicked;
      }
    }
    assert initList == OptionList(if init.Some? then Some(InitFunction(init.value, t.name)) else None);
    assert sb.text == head + FunctionsText(initList, t.name);
    panicked := WriteGetSets(sb, t.getSet, t.name);
    if panicked.Some? {
      MetatableParts(head, initList, gets, methods, t.name);
      return "", panicked;
    }
    panicked := WriteMethods(sb, t.methods, t.name);
    MetatableParts(head, initList, gets, methods, t.name);
    if panicked.Some? {
      return "", panicked;
    }
    assert MetatableFunctions(t.name, init, t.getSet, t.methods) == initList + gets + methods;
    s := sb.text;
  }

  /** The panic and the text of the three groups of functions together. */
  lemma MetatableParts(head: string, a: seq<Function>, b: seq<Function>, c: seq<Function>, scope: string)
    ensures FunctionsPanic(a + b + c) == OrElse(OrElse(FunctionsPanic(a), FunctionsPanic(b)), FunctionsPanic(c))
    ensures head + FunctionsText(a, scope) + FunctionsText(b, scope) + FunctionsText(c, scope)
         == head + FunctionsText(a + b + c, scope)
  {
    FirstSomeAppend(a + b, c, FunctionPanic);
    FirstSomeAppend(a, b, FunctionPanic);
    FunctionsTextAppend(a + b, c, scope);
    FunctionsTextAppend(a, b, scope);
    var x, y, z := FunctionsText(a, scope), FunctionsText(b, scope), FunctionsText(c, scope);
    ConcatAssoc(head, x, y);
    ConcatAssoc(head, x + y, z);
  }

  /** Every getter, setter and method is written as a method: its header
      uses ":". */
  lemma {:induction false} GetSetsAndMethodsAreMethods(gs: seq<GetSet>, ms: seq<Function>)
    decreases |gs| + |ms|
    ensures forall f :: f in GetSetFunctions(gs) + MethodFunctions(ms) ==> f.isMethod
  {
    if gs != [] {
      GetSetsAndMethodsAreMethods(gs[..|gs| - 1], []);
    }
    if ms != [] {
      GetSetsAndMethodsAreMethods(gs, ms[..|ms| - 1]);
    }
  }

  /** A get/set pair is written exactly when it has a getter or a setter; a
      pair with both is one getter stub whose overload is the setter. */
  lemma GetSetWritten(g: GetSet)
    ensures GetSetFunction(g).Some? <==> g.getReturns != [] || g.setArguments != []
    ensures GetSetFunction(g).Some? ==> GetSetFunction(g).value.name == g.name
    ensures g.getReturns != [] && g.setArguments != [] ==>
      var f := GetSetFunction(g).value;
      f.args == [] && f.returnTypes == g.getReturns && f.overload.Some?
      && f.overload.value.args == g.setArguments && f.overload.value.returnTypes == []
  {
  }

  // -----------------------------------------------------------------------
  // Runners

  /** A Runner: its name and its functions. `helpers` holds what
      HelperFunctions returns when the runner implements
      HasHelperFunctions, and `afterTest` says whether it implements
      RunnerAfterTest. */
  datatype Runner = Runner(name: string, functions: seq<Function>, helpers: Option<seq<Function>>, afterTest: bool)
}
