/** The annotation stub generator (lua/generate.go): the text of the
    generated zz_spec.lua for a set of runners, and the conversion of Lua
    values into Go values used for the `Config` table. */
module Generate {
  import opened Wrappers
  import opened Strs
  import opened Values
  import opened SpecTypes
  import Check

  // -----------------------------------------------------------------------
  // writeFunc

  /** The literal writeFunc's stub returns for its first return type. The
      switch compares with the four ArgumentTypeA values only, so every
      other type (arrays, table literals, metatables, enums) gets nothing
      after "return ". */
  function StubDefault(t: ArgType): string {
    if t == StringType then "\"\""
    else if t == NumberType then "0"
    else if t == BooleanType then "false"
    else if t == TableType then "{}"
    else ""
  }

  /** The stub's header: always "scope.name", whether or not the function
      is a method. */
  function StubHeader(f: Function, scope: string): string {
    "function " + scope + "." + f.name + "(" + Join(ParamNames(f.args), ", ") + ")"
  }

  function StubReturn(returnTypes: seq<ArgType>): seq<string> {
    if returnTypes == [] then [] else ["  return " + StubDefault(returnTypes[0])]
  }

  function StubBodyLines(f: Function): seq<string> {
    [PrintLine(f.name)] + StubReturn(f.returnTypes) + ["end", ""]
  }

  /** The lines writeFunc writes: like Function.WriteTo, but never an
      overload line. */
  function StubLines(f: Function, scope: string): seq<string> {
    ["--- " + f.doc] + ParamLines(f.args) + ReturnLines(f.returnTypes) + [StubHeader(f, scope)] + StubBodyLines(f)
  }

  function StubText(f: Function, scope: string): string {
    Unlines(StubLines(f, scope))
  }

  function StubBodyText(f: Function): string {
    PrintLine(f.name) + "\n"
      + (if f.returnTypes == [] then "" else "  return " + StubDefault(f.returnTypes[0]) + "\n")
      + "end\n\n"
  }

  /** The print line, the return statement and "end" of a stub. */
  method WriteStubBody(sb: Builder, f: Function)
    modifies sb
    ensures sb.text == old(sb.text) + StubBodyText(f)
  {
    sb.Write("  print(\"" + f.name + "\")\n");
    ghost var printed := sb.text;
    if |f.returnTypes| > 0 {
      sb.Write("  return ");
      var t := f.returnTypes[0];
      if t == StringType {
        sb.Write("\"\"");
      } else if t == NumberType {
        sb.Write("0");
      } else if t == BooleanType {
        sb.Write("false");
      } else if t == TableType {
        sb.Write("{}");
      }
      sb.Write("\n");
      ConcatAssoc(printed, "  return ", StubDefault(t));
      ConcatAssoc(printed, "  return " + StubDefault(t), "\n");
    }
    ghost var returned := sb.text;
    sb.Write("end\n\n");
    StubBodySteps(old(sb.text), f, returned);
  }

  lemma StubBodySteps(t: string, f: Function, returned: string)
    requires returned == t + ("  print(\"" + f.name + "\")\n")
      + (if f.returnTypes == [] then "" else "  return " + StubDefault(f.returnTypes[0]) + "\n")
    ensures returned + "end\n\n" == t + StubBodyText(f)
  {
    var p := "  print(\"" + f.name + "\")\n";
    var r := if f.returnTypes == [] then "" else "  return " + StubDefault(f.returnTypes[0]) + "\n";
    assert p == PrintLine(f.name) + "\n" by {
      ConcatAssoc("  print(\"" + f.name, "\")", "\n");
    }
    ConcatAssoc(t, p, r);
    ConcatAssoc(t, p + r, "end\n\n");
  }

  lemma StubBodyTextLines(f: Function)
    ensures StubBodyText(f) == Unlines(StubBodyLines(f))
  {
    var p := PrintLine(f.name);
    var mid := StubReturn(f.returnTypes);
    UnlinesAppend([p] + mid, ["end", ""]);
    UnlinesAppend([p], mid);
    UnlinesOne(p);
    UnlinesSnoc(["end"], "");
    UnlinesOne("end");
    assert ["end"] + [""] == ["end", ""];
    if mid != [] {
      UnlinesOne(mid[0]);
      assert [mid[0]] == mid;
    }
    var r := if f.returnTypes == [] then "" else "  return " + StubDefault(f.returnTypes[0]) + "\n";
    assert Unlines(mid) == r;
    ConcatAssoc(p + "\n", r, "end\n\n");
  }

  lemma ConcatFive(t: string, a: string, b: string, c: string, d: string, e: string)
    ensures t + a + b + c + d + e == t + (a + b + c + d + e)
  {
    ConcatAssoc(t, a, b);
    ConcatAssoc(t, a + b, c);
    ConcatAssoc(t, a + b + c, d);
    ConcatAssoc(t, a + b + c + d, e);
  }

  /** StubText as the concatenation of the parts writeFunc writes. */
  lemma StubTextParts(f: Function, scope: string)
    ensures StubText(f, scope) ==
      ("--- " + f.doc + "\n") + Unlines(ParamLines(f.args)) + Unlines(ReturnLines(f.returnTypes))
      + (StubHeader(f, scope) + "\n") + StubBodyText(f)
  {
    var a, b, c, d, e := ["--- " + f.doc], ParamLines(f.args), ReturnLines(f.returnTypes), [StubHeader(f, scope)],
                         StubBodyLines(f);
    UnlinesAppend(a + b + c + d, e);
    UnlinesAppend(a + b + c, d);
    UnlinesAppend(a + b, c);
    UnlinesAppend(a, b);
    UnlinesOne("--- " + f.doc);
    UnlinesOne(StubHeader(f, scope));
    StubBodyTextLines(f);
  }

  /** writeFunc: a panic in a type's String method stops it. */
  method WriteFunc(sb: Builder, scope: string, f: Function) returns (panicked: Option<string>)
    modifies sb
    ensures panicked == SignaturePanic(f)
    ensures panicked.None? ==> sb.text == old(sb.text) + StubText(f, scope)
  {
    sb.Write("--- " + f.doc + "\n");
    panicked := WriteParams(sb, f.args);
    if panicked.Some? {
      return;
    }
    panicked := WriteReturns(sb, f.returnTypes);
    if panicked.Some? {
      return;
    }
    // the header of a function that is not a method: "scope.name(...)"
    WriteHeader(sb, f.(isMethod := false), scope);
    assert Header(f.(isMethod := false), scope) == StubHeader(f, scope);
    WriteStubBody(sb, f);
    StubTextParts(f, scope);
    ConcatFive(old(sb.text), "--- " + f.doc + "\n", Unlines(ParamLines(f.args)), Unlines(ReturnLines(f.returnTypes)),
               StubHeader(f, scope) + "\n", StubBodyText(f));
  }

  // -----------------------------------------------------------------------
  // Properties of writeFunc

  /** The stub, line by line: the doc line, one @param line per argument
      with its types joined by "|", the @return line only when there are
      return types, the "scope.name" header, the print line, the return
      statement only when there are return types (its literal chosen by
      the first return type), "end" and an empty line. */
  lemma StubLayout(f: Function, scope: string)
    ensures var lines := StubLines(f, scope);
      var n := |f.args|;
      var r := if f.returnTypes == [] then 0 else 1;
      && |lines| == n + 2 * r + 5
      && lines[0] == "--- " + f.doc
      && (forall i :: 0 <= i < n ==> lines[1 + i] == "---@param " + f.args[i].name + " " + Join(TypeStrings(f.args[i].types), "|"))
      && (r == 1 ==> lines[1 + n] == "---@return " + Join(TypeStrings(f.returnTypes), "|"))
      && lines[1 + n + r] == "function " + scope + "." + f.name + "(" + Join(ParamNames(f.args), ", ") + ")"
      && lines[2 + n + r] == "  print(\"" + f.name + "\")"
      && (r == 1 ==> lines[3 + n + r] == "  return " + StubDefault(f.returnTypes[0]))
      && lines[|lines| - 2] == "end" && lines[|lines| - 1] == ""
  {
    var head := ["--- " + f.doc] + ParamLines(f.args) + ReturnLines(f.returnTypes);
    var body := [StubHeader(f, scope)] + StubBodyLines(f);
    assert StubLines(f, scope) == head + body;
    DocLayout(f);
    var rest := StubReturn(f.returnTypes) + ["end", ""];
    assert body == [StubHeader(f, scope), PrintLine(f.name)] + rest;
    assert forall i :: 0 <= i < |f.args| ==> ParamLine(f.args[i]) == "---@param " + f.args[i].name + " " + Join(TypeStrings(f.args[i].types), "|");
  }

  /** The default literal: "" for string, 0 for number, false for boolean,
      {} for table, and nothing for any other type. */
  lemma StubDefaults(t: ArgType)
    ensures t == StringType ==> StubDefault(t) == "\"\""
    ensures t == NumberType ==> StubDefault(t) == "0"
    ensures t == BooleanType ==> StubDefault(t) == "false"
    ensures t == TableType ==> StubDefault(t) == "{}"
    ensures StubDefault(t) != "" <==> t.Basic? && 0 <= t.code <= 3
    ensures StubDefault(t) != "" ==> StubDefault(t) == DefaultReturn(t)
  {
  }

  /** For a function that is not a method, has no overload and whose first
      return type, if any, is one of the four basic types, writeFunc writes
      exactly what Function.WriteTo writes. */
  lemma StubAgreesWithWriteTo(f: Function, scope: string)
    requires !f.isMethod && f.overload.None?
    requires f.returnTypes == [] || (f.returnTypes[0].Basic? && 0 <= f.returnTypes[0].code <= 3)
    ensures StubText(f, scope) == FunctionText(f, scope)
  {
    assert StubHeader(f, scope) == Header(f, scope);
    assert StubReturn(f.returnTypes) == ReturnStmt(f.returnTypes);
    assert StubLines(f, scope) == FunctionLines(f, scope);
  }

  /** With a composite first return type the two writers part ways:
      writeFunc leaves the return statement empty where WriteTo returns
      "{}". */
  lemma StubDiffersOnCompositeReturn(f: Function, scope: string)
    requires !f.isMethod && f.overload.None?
    requires f.returnTypes != [] && (f.returnTypes[0].ArrayOf? || f.returnTypes[0].TableLiteral? || f.returnTypes[0].Metatable?)
    ensures |StubText(f, scope)| + 2 == |FunctionText(f, scope)|
  {
    StubTextSplit(f, scope);
    FunctionTextSplit(f, scope);
  }

  /** The stub text up to the header, then the stub body. */
  lemma StubTextSplit(f: Function, scope: string)
    requires !f.isMethod
    ensures StubText(f, scope) ==
      Unlines(["--- " + f.doc] + ParamLines(f.args) + ReturnLines(f.returnTypes) + [Header(f, scope)]) + StubBodyText(f)
  {
    var head := ["--- " + f.doc] + ParamLines(f.args) + ReturnLines(f.returnTypes);
    assert StubHeader(f, scope) == Header(f, scope);
    assert StubLines(f, scope) == head + [Header(f, scope)] + StubBodyLines(f);
    UnlinesAppend(head + [Header(f, scope)], StubBodyLines(f));
    StubBodyTextLines(f);
  }

  /** Without an overload, the text of Function.WriteTo up to the header,
      then the body. */
  lemma FunctionTextSplit(f: Function, scope: string)
    requires f.overload.None?
    ensures FunctionText(f, scope) ==
      Unlines(["--- " + f.doc] + ParamLines(f.args) + ReturnLines(f.returnTypes) + [Header(f, scope)]) + BodyText(f)
  {
    var head := ["--- " + f.doc] + ParamLines(f.args) + ReturnLines(f.returnTypes);
    assert head + OverloadLines(f.overload, scope) == head;
    assert FunctionLines(f, scope) == head + [Header(f, scope)] + BodyLines(f);
    UnlinesAppend(head + [Header(f, scope)], BodyLines(f));
    BodyTextLines(f);
  }

  // -----------------------------------------------------------------------
  // specForRunner

  /** The stubs of several functions, one after the other. */
  function StubsText(fs: seq<Function>, scope: string): string {
    if fs == [] then "" else StubsText(fs[..|fs| - 1], scope) + StubText(fs[|fs| - 1], scope)
  }

  function StubsPanic(fs: seq<Function>): Option<string> {
    FirstSome(fs, SignaturePanic)
  }

  /** One more stub after a prefix that does not panic. */
  lemma StubsStep(fs: seq<Function>, i: nat, scope: string)
    requires i < |fs| && StubsPanic(fs[..i]).None?
    ensures SignaturePanic(fs[i]).Some? ==> StubsPanic(fs) == SignaturePanic(fs[i])
    ensures SignaturePanic(fs[i]).None? ==> StubsPanic(fs[..i + 1]).None?
    ensures StubsText(fs[..i + 1], scope) == StubsText(fs[..i], scope) + StubText(fs[i], scope)
  {
    assert fs[..i + 1][..i] == fs[..i];
    FirstSomeSnoc(fs, i, SignaturePanic);
    if SignaturePanic(fs[i]).Some? {
      FirstSomePrefix(fs, i + 1, SignaturePanic);
    }
  }

  /** The loop of writeFunc calls over a list of functions. */
  method WriteFuncs(sb: Builder, scope: string, fs: seq<Function>) returns (panicked: Option<string>)
    modifies sb
    ensures panicked == StubsPanic(fs)
    ensures panicked.None? ==> sb.text == old(sb.text) + StubsText(fs, scope)
  {
    for i := 0 to |fs|
      invariant StubsPanic(fs[..i]).None?
      invariant sb.text == old(sb.text) + StubsText(fs[..i], scope)
    {
      StubsStep(fs, i, scope);
      ghost var done := StubsText(fs[..i], scope);
      var p := WriteFunc(sb, scope, fs[i]);
      if p.Some? {
        return p;
      }
      ConcatAssoc(old(sb.text), done, StubText(fs[i], scope));
    }
    assert fs[..|fs|] == fs;
    return None;
  }

  /** The class a runner's functions belong to. */
  function Scope(r: Runner): string {
    "TestFunctionT" + r.name
  }

  function RunnerHead(r: Runner): string {
    "---@class " + Scope(r) + "\n" + ("local " + Scope(r) + " = {}\n\n")
  }

  /** The text specForRunner writes. */
  function RunnerSpec(r: Runner): string {
    RunnerHead(r) + StubsText(r.functions, Scope(r))
  }

  function RunnerPanic(r: Runner): Option<string> {
    StubsPanic(r.functions)
  }

  /** specForRunner. */
  method SpecForRunner(sb: Builder, r: Runner) returns (panicked: Option<string>)
    modifies sb
    ensures panicked == RunnerPanic(r)
    ensures panicked.None? ==> sb.text == old(sb.text) + RunnerSpec(r)
  {
    var scope := "TestFunctionT" + r.name;
    sb.Write("---@class " + scope + "\n");
    sb.Write("local " + scope + " = {}\n\n");
    ghost var head := sb.text;
    panicked := WriteFuncs(sb, scope, r.functions);
    if panicked.None? {
      ConcatAssoc(old(sb.text), "---@class " + scope + "\n", "local " + scope + " = {}\n\n");
      ConcatAssoc(old(sb.text), RunnerHead(r), StubsText(r.functions, scope));
    }
  }

  // -----------------------------------------------------------------------
  // combineHelpers

  /** The helpers of the runners that implement HasHelperFunctions, in
      runner order. */
  function Collected(rs: seq<Runner>): seq<Function> {
    if rs == [] then []
    else Collected(rs[..|rs| - 1]) + (match rs[|rs| - 1].helpers case Some(hs) => hs case None => [])
  }

  /** Ordered by name, as SortFunc with strings.Compare leaves a slice. */
  predicate SortedByName(s: seq<Function>) {
    forall i, j :: 0 <= i < j < |s| ==> !Less(s[j].name, s[i].name)
  }

  predicate HasDuplicateName(s: seq<Function>) {
    exists i, j :: 0 <= i < j < |s| && s[i].name == s[j].name
  }

  predicate HasAdjacentDuplicate(s: seq<Function>) {
    exists i :: 0 <= i < |s| - 1 && s[i].name == s[i + 1].name
  }

  /** The sort, in place: insertion by adjacent swaps. */
  method SortByName(a: array<Function>)
    modifies a
    ensures SortedByName(a[..])
    ensures multiset(a[..]) == multiset(old(a[..]))
  {
    for i := 0 to a.Length
      invariant SortedByName(a[..i])
      invariant multiset(a[..]) == multiset(old(a[..]))
    {
      InsertLast(a, i);
    }
    assert a[..a.Length] == a[..];
  }

  /** Moves a[i] down past the elements after it by name. */
  method InsertLast(a: array<Function>, i: nat)
    requires i < a.Length && SortedByName(a[..i])
    modifies a
    ensures SortedByName(a[..i + 1])
    ensures multiset(a[..]) == multiset(old(a[..]))
  {
    var j := i;
    while j > 0 && Less(a[j].name, a[j - 1].name)
      invariant 0 <= j <= i
      invariant multiset(a[..]) == multiset(old(a[..]))
      invariant OrderedExcept(a[..], i, j) && BelowRest(a[..], i, j)
    {
      ghost var before := a[..];
      SwapDown(a, j);
      SwapStep(before, a[..], i, j);
      j := j - 1;
    }
    InsertionDone(a[..], i, j);
  }

  /** Exchanges a[j - 1] and a[j]. */
  method SwapDown(a: array<Function>, j: nat)
    requires 0 < j < a.Length
    modifies a
    ensures a[..] == old(a[..])[j - 1 := old(a[j])][j := old(a[j - 1])]
    ensures multiset(a[..]) == multiset(old(a[..]))
  {
    a[j - 1], a[j] := a[j], a[j - 1];
  }

  /** Positions 0..i other than j are in order. */
  predicate OrderedExcept(s: seq<Function>, i: nat, j: nat)
    requires i < |s|
  {
    forall k, l :: 0 <= k < l <= i && k != j && l != j ==> !Less(s[l].name, s[k].name)
  }

  /** The element at j comes before every later one up to i. */
  predicate BelowRest(s: seq<Function>, i: nat, j: nat)
    requires i < |s|
  {
    forall l :: j < l <= i ==> Less(s[j].name, s[l].name)
  }

  /** One swap of the insertion loop keeps its invariant. */
  lemma SwapStep(s: seq<Function>, t: seq<Function>, i: nat, j: nat)
    requires 0 < j <= i < |s| == |t|
    requires t == s[j - 1 := s[j]][j := s[j - 1]]
    requires OrderedExcept(s, i, j) && BelowRest(s, i, j) && Less(s[j].name, s[j - 1].name)
    ensures OrderedExcept(t, i, j - 1) && BelowRest(t, i, j - 1)
  {
    forall l | j - 1 < l <= i
      ensures Less(t[j - 1].name, t[l].name)
    {
      if l > j {
        assert Less(s[j].name, s[l].name);
      }
    }
  }

  /** The element moved down to j is in place: everything before it is not
      after it, everything after it is after it. */
  lemma InsertionDone(s: seq<Function>, i: nat, j: nat)
    requires j <= i < |s|
    requires OrderedExcept(s, i, j) && BelowRest(s, i, j)
    requires j > 0 ==> !Less(s[j].name, s[j - 1].name)
    ensures SortedByName(s[..i + 1])
  {
    forall k, l | 0 <= k < l <= i
      ensures !Less(s[l].name, s[k].name)
    {
      if l == j {
        if k < j - 1 {
          NotLessTrans(s[k].name, s[j - 1].name, s[j].name);
        }
      } else if k == j {
        LessAsymmetric(s[j].name, s[l].name);
      }
    }
  }

  /** slices.CompactFunc by name: each run of equal names kept once. */
  function Compact(s: seq<Function>): (r: seq<Function>)
    decreases |s|
  {
    if |s| <= 1 then s
    else if s[0].name == s[1].name then Compact([s[0]] + s[2..])
    else [s[0]] + Compact(s[1..])
  }

  /** Compaction shortens the slice exactly when two neighbours share a
      name. */
  lemma {:induction false} CompactShortens(s: seq<Function>)
    decreases |s|
    ensures |Compact(s)| <= |s|
    ensures |Compact(s)| != |s| <==> HasAdjacentDuplicate(s)
  {
    if |s| > 1 {
      if s[0].name == s[1].name {
        CompactShortens([s[0]] + s[2..]);
      } else {
        var t := s[1..];
        CompactShortens(t);
        if HasAdjacentDuplicate(s) {
          var i :| 0 <= i < |s| - 1 && s[i].name == s[i + 1].name;
          assert t[i - 1].name == t[i].name;
        }
        if HasAdjacentDuplicate(t) {
          var i :| 0 <= i < |t| - 1 && t[i].name == t[i + 1].name;
          assert s[i + 1].name == s[i + 2].name;
        }
      }
    }
  }

  /** In a sorted slice a shared name shows up between neighbours. */
  lemma SortedDuplicateAdjacent(s: seq<Function>)
    requires SortedByName(s)
    ensures HasAdjacentDuplicate(s) <==> HasDuplicateName(s)
  {
    if HasDuplicateName(s) {
      var i, j :| 0 <= i < j < |s| && s[i].name == s[j].name;
      LessTotal(s[i].name, s[i + 1].name);
      assert s[i].name == s[i + 1].name;
    }
    if HasAdjacentDuplicate(s) {
      var i :| 0 <= i < |s| - 1 && s[i].name == s[i + 1].name;
      assert s[i].name == s[i + 1].name;
    }
  }

  /** An element counted twice sits at two positions. */
  lemma TwoPositions(t: seq<Function>, x: Function)
    requires multiset(t)[x] >= 2
    ensures exists k, m :: 0 <= k < m < |t| && t[k] == x && t[m] == x
  {
    assert x in multiset(t);
    var k :| 0 <= k < |t| && t[k] == x;
    assert t == t[..k] + [t[k]] + t[k + 1..];
    assert multiset(t[..k] + t[k + 1..])[x] >= 1;
    if x in t[..k] {
      var m :| 0 <= m < k && t[m] == x;
    } else {
      assert x in multiset(t[k + 1..]);
      var m :| 0 <= m < |t[k + 1..]| && t[k + 1..][m] == x;
      assert t[k + 1 + m] == x;
    }
  }

  /** Whether two helpers share a name does not depend on their order. */
  lemma DuplicatePermutation(s: seq<Function>, t: seq<Function>)
    requires multiset(s) == multiset(t) && HasDuplicateName(s)
    ensures HasDuplicateName(t)
  {
    var i, j :| 0 <= i < j < |s| && s[i].name == s[j].name;
    if s[i] == s[j] {
      assert s == s[..j] + [s[j]] + s[j + 1..];
      assert s[i] in multiset(s[..j]);
      TwoPositions(t, s[i]);
    } else {
      assert s[i] in multiset(t) && s[j] in multiset(t);
      var k :| 0 <= k < |t| && t[k] == s[i];
      var m :| 0 <= m < |t| && t[m] == s[j];
      if k < m {
        assert t[k].name == t[m].name;
      } else {
        assert t[m].name == t[k].name;
      }
    }
  }

  /** Insertion of one function into a sorted list: the reference sort. */
  function InsertByName(f: Function, s: seq<Function>): (r: seq<Function>)
    ensures multiset(r) == multiset(s) + multiset{f}
  {
    if s == [] || !Less(s[0].name, f.name) then [f] + s
    else
      assert s == [s[0]] + s[1..];
      [s[0]] + InsertByName(f, s[1..])
  }

  /** The helpers in name order. */
  function SortedByNames(s: seq<Function>): (r: seq<Function>)
    ensures multiset(r) == multiset(s)
  {
    if s == [] then []
    else
      assert s == [s[0]] + s[1..];
      InsertByName(s[0], SortedByNames(s[1..]))
  }

  lemma {:induction false} InsertSorted(f: Function, s: seq<Function>)
    requires SortedByName(s)
    ensures SortedByName(InsertByName(f, s))
  {
    if s == [] {
    } else if !Less(s[0].name, f.name) {
      forall j | 0 <= j < |s|
        ensures !Less(s[j].name, f.name)
      {
        if j > 0 {
          NotLessTrans(f.name, s[0].name, s[j].name);
        }
      }
    } else {
      InsertSorted(f, s[1..]);
      var r := InsertByName(f, s[1..]);
      forall j | 0 <= j < |r|
        ensures !Less(r[j].name, s[0].name)
      {
        assert r[j] in multiset(r);
        if r[j] == f {
          LessAsymmetric(s[0].name, f.name);
        } else {
          assert r[j] in multiset(s[1..]);
          var m :| 0 <= m < |s[1..]| && s[1..][m] == r[j];
          assert s[m + 1] == r[j];
        }
      }
    }
  }

  lemma {:induction false} SortedByNamesSorted(s: seq<Function>)
    ensures SortedByName(SortedByNames(s))
  {
    if s != [] {
      SortedByNamesSorted(s[1..]);
      InsertSorted(s[0], SortedByNames(s[1..]));
    }
  }

  /** Two sorted permutations without duplicate names start alike. */
  lemma SortedSameHead(a: seq<Function>, b: seq<Function>)
    requires SortedByName(a) && SortedByName(b) && multiset(a) == multiset(b) && !HasDuplicateName(a)
    requires a != []
    ensures b != [] && a[0] == b[0]
  {
    assert a[0] in multiset(b);
    var k :| 0 <= k < |b| && b[k] == a[0];
    assert b[0] in multiset(a);
    var m :| 0 <= m < |a| && a[m] == b[0];
    LessIrreflexive(a[0].name);
    LessIrreflexive(b[0].name);
    assert !Less(a[m].name, a[0].name);
    assert !Less(b[k].name, b[0].name);
    LessTotal(a[0].name, b[0].name);
    assert m == 0;
  }

  lemma TailMultiset<T>(a: seq<T>, b: seq<T>)
    requires a != [] && b != [] && a[0] == b[0] && multiset(a) == multiset(b)
    ensures multiset(a[1..]) == multiset(b[1..])
  {
    assert a == [a[0]] + a[1..];
    assert b == [b[0]] + b[1..];
    assert multiset(a) == multiset{a[0]} + multiset(a[1..]);
    assert multiset(b) == multiset{a[0]} + multiset(b[1..]);
    forall x
      ensures multiset(a[1..])[x] == multiset(b[1..])[x]
    {
      assert multiset(a)[x] == multiset{a[0]}[x] + multiset(a[1..])[x];
      assert multiset(b)[x] == multiset{a[0]}[x] + multiset(b[1..])[x];
    }
  }

  /** Without duplicate names there is one sorted order: whatever the sort
      does with equal names, the result is determined. */
  lemma {:induction false} SortedUnique(a: seq<Function>, b: seq<Function>)
    requires SortedByName(a) && SortedByName(b) && multiset(a) == multiset(b) && !HasDuplicateName(a)
    decreases |a|
    ensures a == b
  {
    if a == [] {
      assert |b| == |multiset(b)| == 0;
    } else {
      SortedSameHead(a, b);
      TailMultiset(a, b);
      SortedUnique(a[1..], b[1..]);
      assert a == [a[0]] + a[1..] && b == [b[0]] + b[1..];
    }
  }

  /** combineHelpers: the collected helpers sorted by name, or the
      duplicate error when two helpers share a name. */
  method CombineHelpers(rs: seq<Runner>) returns (funcs: seq<Function>, err: Option<string>)
    ensures err.Some? <==> HasDuplicateName(Collected(rs))
    ensures err.Some? ==> err.value == "duplicate function names" && funcs == []
    ensures err.None? ==> funcs == SortedByNames(Collected(rs))
  {
    var collected: seq<Function> := [];
    for i := 0 to |rs|
      invariant collected == Collected(rs[..i])
    {
      assert rs[..i + 1][..i] == rs[..i];
      if rs[i].helpers.Some? {
        collected := collected + rs[i].helpers.value;
      } else {
        assert collected + [] == collected;
      }
    }
    assert rs[..|rs|] == rs;
    var a := new Function[|collected|](k requires 0 <= k < |collected| => collected[k]);
    assert a[..] == collected;
    SortByName(a);
    var sorted := a[..];
    CompactShortens(sorted);
    SortedDuplicateAdjacent(sorted);
    if |Compact(sorted)| != |sorted| {
      DuplicatePermutation(sorted, collected);
      return [], Some("duplicate function names");
    }
    if HasDuplicateName(collected) {
      DuplicatePermutation(collected, sorted);
    }
    SortedByNamesSorted(collected);
    SortedUnique(sorted, SortedByNames(collected));
    return sorted, None;
  }

  // -----------------------------------------------------------------------
  // GenerateSpec

  /** The fixed preamble: the stubs of Ignore, NotNull and Save, and the
      State and Null globals. */
  /** The fixed preamble, line by line. */
  const BaseLines: seq<string> := [
    "\n",
    "-- This file is generated. Do not edit.\n",
    "\n",
    "\n",
    "--- Ignore the field regardless of its value\n",
    "---@return userdata\n",
    "function Ignore()\n",
    "  print(\"Ignore\")\n",
    "  ---@diagnostic disable-next-line: return-type-mismatch\n",
    "  return {}\n",
    "end\n",
    "\n",
    "--- Ensure the field is not null, but allow any other value\n",
    "---@return userdata\n",
    "function NotNull()\n",
    "\tprint(\"NotNull\")\n",
    "  ---@diagnostic disable-next-line: return-type-mismatch\n",
    "\treturn {}\n",
    "end\n",
    "\n",
    "--- Save the field to the state. By default it will error if the field is null\n",
    "---@param name string Name of the field in the state\n",
    "---@param allowNull? boolean\n",
    "---@return userdata\n",
    "function Save(name, allowNull)\n",
    "  print(\"Save: \", name, allowNull)\n",
    "  ---@diagnostic disable-next-line: return-type-mismatch\n",
    "  return {}\n",
    "end\n",
    "\n",
    "--- State variables\n",
    "---@type table<string, any>\n",
    "State = {}\n",
    "\n",
    "--- Null ensures the value is null\n",
    "---@type userdata\n",
    "---@diagnostic disable-next-line: assign-type-mismatch\n",
    "Null = {}\n",
    "\n"
  ]

  /** Strings written one after the other. */
  function Concat(ls: seq<string>): string {
    if ls == [] then "" else Concat(ls[..|ls| - 1]) + ls[|ls| - 1]
  }

  const Base: string := Concat(BaseLines)

  /** The specs of several runners, one after the other. */
  function RunnersSpec(rs: seq<Runner>): string {
    if rs == [] then "" else RunnersSpec(rs[..|rs| - 1]) + RunnerSpec(rs[|rs| - 1])
  }

  function RunnersPanic(rs: seq<Runner>): Option<string> {
    FirstSome(rs, RunnerPanic)
  }

  /** The field of the Test class for one runner. */
  function FieldLine(name: string): string {
    "---@field " + name + " fun(name: string, fn: fun(t: TestFunctionT" + name + "))"
  }

  /** One field line per runner, in runner order. */
  function FieldLines(rs: seq<Runner>): (r: seq<string>)
    ensures |r| == |rs|
    ensures forall i :: 0 <= i < |rs| ==> r[i] == FieldLine(rs[i].name)
  {
    if rs == [] then [] else FieldLines(rs[..|rs| - 1]) + [FieldLine(rs[|rs| - 1].name)]
  }

  /** The Helper class and its stubs; nothing without helpers. */
  function HelperSection(hs: seq<Function>): string {
    if hs == [] then ""
    else "\n\n--- Helper functions\n" + "---@class Helper\n" + "Helper = {}\n\n" + StubsText(hs, "Helper")
  }

  /** The text GenerateSpec builds before trimming. */
  /** Everything written before "Test = {}". */
  function SpecHead(rs: seq<Runner>): string {
    Base + RunnersSpec(rs) + "--- Test case\n---@class Test\n" + Unlines(FieldLines(rs))
  }

  function SpecText(rs: seq<Runner>, hs: seq<Function>): string {
    SpecHead(rs) + "Test = {}" + HelperSection(hs)
  }

  /** The written text, trimmed, and one newline. */
  function Rendered(rs: seq<Runner>, hs: seq<Function>): string {
    TrimSpace(SpecText(rs, hs)) + "\n"
  }

  /** GenerateSpec: the bytes written, or the panic that stops it first. */
  function Generated(rs: seq<Runner>): Result<string, string> {
    if RunnersPanic(rs).Some? then Err(RunnersPanic(rs).value)
    else if HasDuplicateName(Collected(rs)) then Err("duplicate function names")
    else
      var hs := SortedByNames(Collected(rs));
      if StubsPanic(hs).Some? then Err(StubsPanic(hs).value)
      else Ok(Rendered(rs, hs))
  }

  lemma RunnersStep(rs: seq<Runner>, i: nat)
    requires i < |rs| && RunnersPanic(rs[..i]).None?
    ensures RunnerPanic(rs[i]).Some? ==> RunnersPanic(rs) == RunnerPanic(rs[i])
    ensures RunnerPanic(rs[i]).None? ==> RunnersPanic(rs[..i + 1]).None?
    ensures RunnersSpec(rs[..i + 1]) == RunnersSpec(rs[..i]) + RunnerSpec(rs[i])
  {
    assert rs[..i + 1][..i] == rs[..i];
    FirstSomeSnoc(rs, i, RunnerPanic);
    if RunnerPanic(rs[i]).Some? {
      FirstSomePrefix(rs, i + 1, RunnerPanic);
    }
  }

  /** The stubs of every runner. */
  method WriteRunners(sb: Builder, rs: seq<Runner>) returns (panicked: Option<string>)
    modifies sb
    ensures panicked == RunnersPanic(rs)
    ensures panicked.None? ==> sb.text == old(sb.text) + RunnersSpec(rs)
  {
    for i := 0 to |rs|
      invariant RunnersPanic(rs[..i]).None?
      invariant sb.text == old(sb.text) + RunnersSpec(rs[..i])
    {
      RunnersStep(rs, i);
      ghost var done := RunnersSpec(rs[..i]);
      var p := SpecForRunner(sb, rs[i]);
      if p.Some? {
        return p;
      }
      ConcatAssoc(old(sb.text), done, RunnerSpec(rs[i]));
    }
    assert rs[..|rs|] == rs;
    return None;
  }

  /** The fields of the Test class. */
  method WriteFields(sb: Builder, rs: seq<Runner>)
    modifies sb
    ensures sb.text == old(sb.text) + Unlines(FieldLines(rs))
  {
    for i := 0 to |rs|
      invariant sb.text == old(sb.text) + Unlines(FieldLines(rs[..i]))
    {
      assert rs[..i + 1][..i] == rs[..i];
      ghost var done := Unlines(FieldLines(rs[..i]));
      var line := FieldLine(rs[i].name) + "\n";
      sb.Write(line);
      UnlinesSnoc(FieldLines(rs[..i]), FieldLine(rs[i].name));
      ConcatAssoc(old(sb.text), done, FieldLine(rs[i].name) + "\n");
      ConcatAssoc(done, FieldLine(rs[i].name), "\n");
    }
    assert rs[..|rs|] == rs;
  }

  /** The Helper section, written only when there are helpers. */
  method WriteHelpers(sb: Builder, hs: seq<Function>) returns (panicked: Option<string>)
    modifies sb
    ensures panicked == StubsPanic(hs)
    ensures panicked.None? ==> sb.text == old(sb.text) + HelperSection(hs)
  {
    if |hs| > 0 {
      sb.Write("\n\n--- Helper functions\n");
      sb.Write("---@class Helper\n");
      sb.Write("Helper = {}\n\n");
      panicked := WriteFuncs(sb, "Helper", hs);
      if panicked.None? {
        var a, b, c := "\n\n--- Helper functions\n", "---@class Helper\n", "Helper = {}\n\n";
        ConcatAssoc(old(sb.text), a, b);
        ConcatAssoc(old(sb.text), a + b, c);
        ConcatAssoc(old(sb.text), a + b + c, StubsText(hs, "Helper"));
      }
    } else {
      panicked := None;
    }
  }

  /** GenerateSpec with no config: writeConfig writes nothing for a nil
      config. The result is what is written to w, or the panic. */
  method GenerateSpec(rs: seq<Runner>) returns (r: Result<string, string>)
    ensures r == Generated(rs)
  {
    var sb := new Builder();
    sb.Write(Base);
    assert sb.text == Base;
    var p := WriteRunners(sb, rs);
    if p.Some? {
      return Err(p.value);
    }
    sb.Write("--- Test case\n---@class Test\n");
    WriteFields(sb, rs);
    sb.Write("Test = {}");
    ghost var tested := sb.text;
    assert tested == SpecHead(rs) + "Test = {}";
    var helpers, err := CombineHelpers(rs);
    if err.Some? {
      return Err(err.value);
    }
    p := WriteHelpers(sb, helpers);
    if p.Some? {
      return Err(p.value);
    }
    assert sb.text == tested + HelperSection(helpers);
    return Ok(TrimSpace(sb.text) + "\n");
  }

  // -----------------------------------------------------------------------
  // Properties of GenerateSpec

  /** TrimSpace keeps a string that has a character other than white
      space from becoming empty. */
  lemma TrimSpaceNotEmpty(s: string, i: nat)
    requires i < |s| && !IsSpace(s[i])
    ensures TrimSpace(s) != []
  {
    var l := TrimLeftSpace(s);
    assert |s| - |l| <= i;
    assert l[i - (|s| - |l|)] == s[i];
  }

  /** A text that ends in exactly one newline, with no white space before
      it, and does not start with white space. */
  predicate OneNewlineAtEnd(out: string) {
    && |out| >= 2 && out[|out| - 1] == '\n'
    && !IsSpace(out[|out| - 2]) && !IsSpace(out[0])
  }

  /** A text with "Test = {}" in it, trimmed and given one newline. */
  lemma TrimmedWithNewline(p: string, h: string)
    ensures OneNewlineAtEnd(TrimSpace(p + "Test = {}" + h) + "\n")
  {
    var s := p + "Test = {}" + h;
    assert s[|p|] == 'T';
    TrimSpaceNotEmpty(s, |p|);
    TrimSpaceEnds(s);
  }

  lemma RenderedOneNewline(rs: seq<Runner>, hs: seq<Function>)
    ensures OneNewlineAtEnd(Rendered(rs, hs))
  {
    TrimmedWithNewline(SpecHead(rs), HelperSection(hs));
  }

  /** The generated file is the trimmed text and exactly one newline: it
      ends in "\n" with no white space before it, and does not start with
      white space. */
  lemma GeneratedEndsWithOneNewline(rs: seq<Runner>)
    requires Generated(rs).Ok?
    ensures OneNewlineAtEnd(Generated(rs).value)
  {
    var hs := SortedByNames(Collected(rs));
    assert Generated(rs) == Ok(Rendered(rs, hs));
    RenderedOneNewline(rs, hs);
  }

  /** combineHelpers' error stops GenerateSpec: when the runners' own stubs
      do not panic, two helpers with one name make it panic with
      "duplicate function names", and nothing else does. */
  lemma DuplicateHelpersPanic(rs: seq<Runner>)
    requires RunnersPanic(rs).None?
    ensures HasDuplicateName(Collected(rs)) <==> Generated(rs) == Err("duplicate function names")
  {
    var hs := SortedByNames(Collected(rs));
    StubsPanicMessage(hs);
    assert "duplicate function names"[0] != "unknown type: "[0];
  }

  /** Every panic of a type's String method names the unknown type. */
  lemma {:induction false} TypesPanicMessage(ts: seq<ArgType>)
    ensures FirstPanic(ts).Some? ==> HasPrefix(FirstPanic(ts).value, "unknown type: ")
  {
    if ts != [] {
      TypesPanicMessage(ts[..|ts| - 1]);
      var t := ts[|ts| - 1];
      if TypePanic(t).Some? {
        assert TypePanic(t).value == "unknown type: " + Itoa(t.code);
      }
    }
  }

  lemma {:induction false} ArgsPanicMessage(args: seq<Argument>)
    ensures ArgsPanic(args).Some? ==> HasPrefix(ArgsPanic(args).value, "unknown type: ")
  {
    if args != [] {
      ArgsPanicMessage(args[..|args| - 1]);
      TypesPanicMessage(args[|args| - 1].types);
    }
  }

  lemma {:induction false} StubsPanicMessage(fs: seq<Function>)
    ensures StubsPanic(fs).Some? ==> HasPrefix(StubsPanic(fs).value, "unknown type: ")
  {
    if fs != [] {
      StubsPanicMessage(fs[..|fs| - 1]);
      ArgsPanicMessage(fs[|fs| - 1].args);
      TypesPanicMessage(fs[|fs| - 1].returnTypes);
    }
  }

  /** The Helper section is there exactly when some runner that implements
      HasHelperFunctions has a helper, and it lists the helpers by name. */
  lemma HelperSectionIffHelpers(rs: seq<Runner>)
    ensures var hs := SortedByNames(Collected(rs));
      && (HelperSection(hs) == "" <==> forall i :: 0 <= i < |rs| && rs[i].helpers.Some? ==> rs[i].helpers.value == [])
      && SortedByName(hs) && multiset(hs) == multiset(Collected(rs))
  {
    CollectedEmpty(rs);
    SortedByNamesSorted(Collected(rs));
  }

  lemma {:induction false} CollectedEmpty(rs: seq<Runner>)
    ensures Collected(rs) == [] <==> forall i :: 0 <= i < |rs| && rs[i].helpers.Some? ==> rs[i].helpers.value == []
  {
    if rs != [] {
      var init := rs[..|rs| - 1];
      CollectedEmpty(init);
      assert forall i :: 0 <= i < |init| ==> init[i] == rs[i];
    }
  }

  /** The helpers come exactly from the runners that implement
      HasHelperFunctions. */
  lemma {:induction false} CollectedFrom(rs: seq<Runner>, f: Function)
    ensures f in Collected(rs) <==> exists i :: 0 <= i < |rs| && rs[i].helpers.Some? && f in rs[i].helpers.value
  {
    if rs != [] {
      var init := rs[..|rs| - 1];
      CollectedFrom(init, f);
      assert forall i :: 0 <= i < |init| ==> init[i] == rs[i];
    }
  }

  // -----------------------------------------------------------------------
  // ConvertToGoType

  /** A key Go cannot hash in a map[any]any: what a table key converts to
      (a slice or a map), or a userdata or function key, whose conversion
      panics first. */
  predicate BadKey(k: LuaValue) {
    k.LTable? || k.LUserData? || k.LFunction?
  }

  /** A value ConvertToGoType panics on somewhere: a userdata or function
      reached as a value, or, inside a table converted as a map, as a
      key. Entries with a nil value are never visited. */
  predicate Unconvertible(v: LuaValue)
    decreases v, 2
  {
    match v
    case LUserData(_, _) => true
    case LFunction(_) => true
    case LTable(_, _) =>
      if Len(v.arrayPart) == 0 then BadFrom(v, 0)
      else exists j :: 0 <= j < SlotCount(v) && Unconvertible(SlotValue(v, j))
    case _ => false
  }

  predicate BadEntry(t: LuaValue, i: nat)
    requires t.LTable? && i < |t.hashPart|
    decreases t, 0
  {
    var k, v := t.hashPart[i].0, t.hashPart[i].1;
    v != LNil && (BadKey(k) || Unconvertible(v))
  }

  /** Some entry of the hash part at or after position i is bad. */
  predicate BadFrom(t: LuaValue, i: nat)
    requires t.LTable? && i <= |t.hashPart|
    decreases t, 1, |t.hashPart| - i
  {
    i < |t.hashPart| && (BadEntry(t, i) || BadFrom(t, i + 1))
  }

  /** The runtime panic of a map assignment with an unhashable key. */
  function UnhashablePanic(k: Value): string {
    "runtime error: hash of unhashable type " + (if k.List? then "[]interface {}" else "map[interface {}]interface {}")
  }

  /** ConvertToGoType. Nil, booleans, numbers and strings map directly; a
      table whose Len() is 0 becomes a map[any]any of converted keys and
      values; any other table the list of its values in ForEach order,
      keys dropped; anything else panics. */
  function ConvertToGoType(v: LuaValue): (r: Result<Value, string>)
    decreases v, 3
    ensures r.Err? <==> Unconvertible(v)
    ensures r.Ok? && v.LTable? && Len(v.arrayPart) == 0 ==> r.value.AnyMap?
    ensures r.Ok? && v.LTable? && Len(v.arrayPart) != 0 ==>
      r.value.List? && |r.value.items| == |Present(v, 0)|
  {
    match v
    case LNil => Ok(Nil)
    case LBool(b) => Ok(Bool(b))
    case LNumber(n) => Ok(Float(n))
    case LString(s) => Ok(Str(s))
    case LTable(_, _) => if Len(v.arrayPart) == 0 then ConvertMap(v, 0, map[]) else ConvertList(v, 0, [])
    case LUserData(_, _) => Err("unknown typeuserdata")
    case LFunction(_) => Err("unknown typefunction")
  }

  /** The map branch. The array part of a table with Len() 0 holds only
      nils, which ForEach skips, so only the hash part is visited; a later
      key overwrites an earlier one. The key is converted before the
      value. */
  function ConvertMap(t: LuaValue, i: nat, m: map<Value, Value>): (r: Result<Value, string>)
    requires t.LTable? && i <= |t.hashPart|
    decreases t, 2, |t.hashPart| - i
    ensures r.Err? <==> BadFrom(t, i)
    ensures r.Ok? ==> r.value.AnyMap? && m.Keys <= r.value.entries.Keys
    ensures r.Ok? ==> forall k :: i <= k < |t.hashPart| && t.hashPart[k].1 != LNil ==>
      ConvertToGoType(t.hashPart[k].0).Ok? && ConvertToGoType(t.hashPart[k].0).value in r.value.entries
  {
    if i == |t.hashPart| then Ok(AnyMap(m))
    else
      var key, val := t.hashPart[i].0, t.hashPart[i].1;
      if val == LNil then ConvertMap(t, i + 1, m)
      else
        match ConvertToGoType(key)
        case Err(e) =>
          assert BadEntry(t, i);
          Err(e)
        case Ok(gk) =>
          match ConvertToGoType(val)
          case Err(e) =>
            assert BadEntry(t, i);
            Err(e)
          case Ok(gv) =>
            if gk.List? || gk.AnyMap? then
              assert BadEntry(t, i);
              Err(UnhashablePanic(gk))
            else
              ConvertMap(t, i + 1, m[gk := gv])
  }

  /** The list branch: every visited value, in ForEach order. */
  function ConvertList(t: LuaValue, j: nat, l: seq<Value>): (r: Result<Value, string>)
    requires t.LTable? && j <= SlotCount(t)
    decreases t, 2, SlotCount(t) - j
    ensures r.Err? <==> exists k :: j <= k < SlotCount(t) && Unconvertible(SlotValue(t, k))
    ensures r.Ok? ==> r.value.List? && |r.value.items| == |l| + |Present(t, j)|
    ensures r.Ok? ==> r.value.items[..|l|] == l
  {
    if j == SlotCount(t) then Ok(List(l))
    else
      var val := SlotValue(t, j);
      if val == LNil then ConvertList(t, j + 1, l)
      else
        match ConvertToGoType(val)
        case Err(e) => Err(e)
        case Ok(x) =>
          var r := ConvertList(t, j + 1, l + [x]);
          assert r.Ok? ==> r.value.items[..|l|] == (r.value.items[..|l| + 1])[..|l|];
          r
  }

  // -----------------------------------------------------------------------
  // Properties of ConvertToGoType

  /** An empty table, `{}`, becomes an empty map, never a list. */
  lemma EmptyTableIsEmptyMap()
    ensures ConvertToGoType(LTable([], [])) == Ok(AnyMap(map[]))
  {
  }

  /** A table used as a plain list (its array part full, no other keys)
      becomes the list of its converted elements, in order. */
  lemma {:induction false} ListKeepsOrder(t: LuaValue, j: nat, l: seq<Value>)
    requires t.LTable? && t.hashPart == [] && j <= |t.arrayPart|
    requires forall k :: 0 <= k < |t.arrayPart| ==> t.arrayPart[k] != LNil && !Unconvertible(t.arrayPart[k])
    decreases |t.arrayPart| - j
    ensures ConvertList(t, j, l).Ok?
    ensures var items := ConvertList(t, j, l).value.items;
      |items| == |l| + |t.arrayPart| - j
      && forall k :: j <= k < |t.arrayPart| ==> items[|l| + k - j] == ConvertToGoType(t.arrayPart[k]).value
  {
    if j < |t.arrayPart| {
      var x := ConvertToGoType(t.arrayPart[j]).value;
      ListKeepsOrder(t, j + 1, l + [x]);
      assert ConvertList(t, j, l) == ConvertList(t, j + 1, l + [x]) by {
        assert SlotValue(t, j) == t.arrayPart[j] != LNil;
        assert ConvertToGoType(t.arrayPart[j]) == Ok(x);
      }
      var items := ConvertList(t, j, l).value.items;
      assert items[|l|] == x by {
        assert items[..|l| + 1] == l + [x];
        assert items[|l|] == (l + [x])[|l|];
      }
      forall k | j <= k < |t.arrayPart|
        ensures items[|l| + k - j] == ConvertToGoType(t.arrayPart[k]).value
      {
        if k > j {
          assert |l + [x]| + k - (j + 1) == |l| + k - j;
        }
      }
    }
  }

  /** The list holds, after l, the converted value of every visited slot,
      in ForEach order. */
  lemma {:induction false} ListItems(t: LuaValue, j: nat, l: seq<Value>, n: nat)
    requires t.LTable? && j <= SlotCount(t) && ConvertList(t, j, l).Ok? && n < |Present(t, j)|
    decreases SlotCount(t) - j
    ensures ConvertToGoType(SlotValue(t, Present(t, j)[n])) == Ok(ConvertList(t, j, l).value.items[|l| + n])
  {
    if SlotValue(t, j) == LNil {
      ListItems(t, j + 1, l, n);
    } else {
      var x := ConvertToGoType(SlotValue(t, j)).value;
      var items := ConvertList(t, j + 1, l + [x]).value.items;
      if n == 0 {
        assert items[..|l| + 1] == l + [x];
        assert items[|l|] == (l + [x])[|l|];
      } else {
        ListItems(t, j + 1, l + [x], n - 1);
      }
    }
  }

  /** Some non-nil entry of the hash part at or after i has a key that
      converts to k. */
  predicate HasGoKeyFrom(t: LuaValue, i: nat, k: Value)
    requires t.LTable? && i <= |t.hashPart|
  {
    exists h :: i <= h < |t.hashPart| && t.hashPart[h].1 != LNil && ConvertToGoType(t.hashPart[h].0) == Ok(k)
  }

  /** The keys of the map are those of m and the converted keys of the
      entries ForEach visits; no other key appears. */
  lemma {:induction false} MapKeys(t: LuaValue, i: nat, m: map<Value, Value>, k: Value)
    requires t.LTable? && i <= |t.hashPart| && ConvertMap(t, i, m).Ok?
    decreases |t.hashPart| - i
    ensures k in ConvertMap(t, i, m).value.entries <==> k in m || HasGoKeyFrom(t, i, k)
  {
    if i < |t.hashPart| {
      if t.hashPart[i].1 == LNil {
        MapKeys(t, i + 1, m, k);
        assert HasGoKeyFrom(t, i, k) ==> HasGoKeyFrom(t, i + 1, k);
      } else {
        var gk, gv := ConvertToGoType(t.hashPart[i].0).value, ConvertToGoType(t.hashPart[i].1).value;
        MapKeys(t, i + 1, m[gk := gv], k);
        if HasGoKeyFrom(t, i, k) && gk != k {
          var h :| i <= h < |t.hashPart| && t.hashPart[h].1 != LNil && ConvertToGoType(t.hashPart[h].0) == Ok(k);
          assert HasGoKeyFrom(t, i + 1, k);
        }
      }
    }
  }

  /** Entry h is the last visited entry whose key converts to k. */
  predicate LastGoKey(t: LuaValue, h: nat, k: Value)
    requires t.LTable? && h < |t.hashPart|
  {
    t.hashPart[h].1 != LNil && ConvertToGoType(t.hashPart[h].0) == Ok(k) && !HasGoKeyFrom(t, h + 1, k)
  }

  /** A key maps to the converted value of the last visited entry with
      that key: a later entry overwrites an earlier one. */
  lemma {:induction false} MapLastWins(t: LuaValue, i: nat, m: map<Value, Value>, h: nat, k: Value)
    requires t.LTable? && i <= h < |t.hashPart| && ConvertMap(t, i, m).Ok? && LastGoKey(t, h, k)
    decreases |t.hashPart| - i
    ensures k in ConvertMap(t, i, m).value.entries
    ensures ConvertToGoType(t.hashPart[h].1) == Ok(ConvertMap(t, i, m).value.entries[k])
  {
    if t.hashPart[i].1 == LNil {
      MapLastWins(t, i + 1, m, h, k);
    } else {
      var gk, gv := ConvertToGoType(t.hashPart[i].0).value, ConvertToGoType(t.hashPart[i].1).value;
      if i < h {
        MapLastWins(t, i + 1, m[gk := gv], h, k);
      } else {
        MapKept(t, i + 1, m[gk := gv], k);
      }
    }
  }

  /** A key of m that no visited entry's key converts to keeps its value. */
  lemma {:induction false} MapKept(t: LuaValue, i: nat, m: map<Value, Value>, k: Value)
    requires t.LTable? && i <= |t.hashPart| && ConvertMap(t, i, m).Ok?
    requires k in m && !HasGoKeyFrom(t, i, k)
    decreases |t.hashPart| - i
    ensures k in ConvertMap(t, i, m).value.entries && ConvertMap(t, i, m).value.entries[k] == m[k]
  {
    if i < |t.hashPart| {
      assert !HasGoKeyFrom(t, i + 1, k);
      if t.hashPart[i].1 == LNil {
        MapKept(t, i + 1, m, k);
      } else {
        var gk, gv := ConvertToGoType(t.hashPart[i].0).value, ConvertToGoType(t.hashPart[i].1).value;
        MapKept(t, i + 1, m[gk := gv], k);
      }
    }
  }

  /** A table with a hash part converts as a map only while its array part
      holds no value; then every present key, converted, is a key of the
      map. */
  lemma MapHasEveryKey(t: LuaValue, i: nat)
    requires t.LTable? && Len(t.arrayPart) == 0 && ConvertToGoType(t).Ok?
    requires i < |t.hashPart| && t.hashPart[i].1 != LNil
    ensures ConvertToGoType(t.hashPart[i].0).Ok?
    ensures ConvertToGoType(t.hashPart[i].0).value in ConvertToGoType(t).value.entries
  {
  }

  /** A table key makes a map conversion panic: Go cannot hash the slice
      or map it converts to. */
  lemma TableKeyPanics(t: LuaValue, i: nat)
    requires t.LTable? && Len(t.arrayPart) == 0
    requires i < |t.hashPart| && t.hashPart[i].0.LTable? && t.hashPart[i].1 != LNil
    ensures ConvertToGoType(t).Err?
  {
    assert BadEntry(t, i);
    BadEntryFrom(t, 0, i);
  }

  /** One bad entry at or after j makes the hash part bad from j. */
  lemma {:induction false} BadEntryFrom(t: LuaValue, j: nat, i: nat)
    requires t.LTable? && j <= i < |t.hashPart| && BadEntry(t, i)
    decreases i - j
    ensures BadFrom(t, j)
  {
    if j < i {
      BadEntryFrom(t, j + 1, i);
    }
  }
}
