/** Dedent (lua/runner/strings.go): removes the indentation common to the
    non-blank lines of a text and trims the result. Indentation is counted
    in spaces and tabs, one byte each. */
module Dedent {
  import opened Wrappers
  import opened Strs

  /** The number of leading spaces and tabs of a line. */
  function Indent(line: string): nat {
    |line| - |TrimLeftBlank(line)|
  }

  /** A line made of spaces and tabs only (or empty). */
  predicate Blank(line: string) {
    TrimLeftBlank(line) == ""
  }

  /** The least indent of the non-blank lines; None when every line is
      blank (the source's math.MaxInt). */
  function MinIndent(lines: seq<string>): Option<nat> {
    if lines == [] then None
    else
      var line := lines[|lines| - 1];
      var before := MinIndent(lines[..|lines| - 1]);
      if Blank(line) then before
      else if before.None? || Indent(line) < before.value then Some(Indent(line))
      else before
  }

  /** MinIndent is the least indent of a non-blank line, and None only
      when every line is blank. */
  lemma {:induction false} MinIndentIsLeast(lines: seq<string>)
    ensures MinIndent(lines).None? <==> forall i :: 0 <= i < |lines| ==> Blank(lines[i])
    ensures MinIndent(lines).Some? ==>
      forall i :: 0 <= i < |lines| && !Blank(lines[i]) ==> MinIndent(lines).value <= Indent(lines[i])
    ensures MinIndent(lines).Some? ==>
      exists i :: 0 <= i < |lines| && !Blank(lines[i]) && Indent(lines[i]) == MinIndent(lines).value
  {
    if lines != [] {
      var init := lines[..|lines| - 1];
      MinIndentIsLeast(init);
      assert forall i :: 0 <= i < |init| ==> init[i] == lines[i];
    }
  }

  /** The second loop's treatment of one line. */
  function Strip(line: string, m: nat): string {
    if |line| >= m then line[m..] else TrimLeftBlank(line)
  }

  function StripAll(lines: seq<string>, m: nat): (r: seq<string>)
    ensures |r| == |lines|
    ensures forall i :: 0 <= i < |lines| ==> r[i] == Strip(lines[i], m)
  {
    seq(|lines|, i requires 0 <= i < |lines| => Strip(lines[i], m))
  }

  /** The text Dedent trims before returning it: the input itself when
      no non-blank line is indented, else its lines stripped of the common
      indent. */
  function Unindented(s: string): string {
    var lines := Split(s, "\n");
    match MinIndent(lines)
    case None => s
    case Some(m) => if m == 0 then s else Join(StripAll(lines, m), "\n")
  }

  /** The text Dedent returns. */
  function Dedented(s: string): string {
    TrimSpace(Unindented(s))
  }

  /** The first loop of Dedent: the least indent of the non-blank lines. */
  method FindMinIndent(lines: seq<string>) returns (minIndent: Option<nat>)
    ensures minIndent == MinIndent(lines)
  {
    minIndent := None;
    for i := 0 to |lines|
      invariant minIndent == MinIndent(lines[..i])
    {
      assert lines[..i + 1][..i] == lines[..i];
      var line := lines[i];
      var trimmed := TrimLeftBlank(line);
      if trimmed != "" {
        var indent := |line| - |trimmed|;
        if minIndent.None? || indent < minIndent.value {
          minIndent := Some(indent);
        }
      }
    }
    assert lines[..|lines|] == lines;
  }

  /** The second loop of Dedent: the result slice, line by line. */
  method StripLines(lines: seq<string>, m: nat) returns (result: array<string>)
    ensures fresh(result) && result[..] == StripAll(lines, m)
  {
    result := new string[|lines|];
    for i := 0 to |lines|
      invariant forall j :: 0 <= j < i ==> result[j] == Strip(lines[j], m)
    {
      var line := lines[i];
      if |line| >= m {
        result[i] := line[m..];
      } else {
        result[i] := TrimLeftBlank(line);
      }
    }
    assert result[..] == StripAll(lines, m);
  }

  /** Dedent. */
  method Dedent(s: string) returns (r: string)
    ensures r == Dedented(s)
  {
    var lines := Split(s, "\n");
    var minIndent := FindMinIndent(lines);
    if minIndent.None? || minIndent.value == 0 {
      return TrimSpace(s);
    }
    var result := StripLines(lines, minIndent.value);
    return TrimSpace(Join(result[..], "\n"));
  }

  // -----------------------------------------------------------------------
  // Properties

  /** The output has no white space at either end. */
  lemma DedentedTrimmed(s: string)
    ensures var r := Dedented(s); r == [] || (!IsSpace(r[0]) && !IsSpace(r[|r| - 1]))
  {
    TrimSpaceEnds(Unindented(s));
  }

  /** Without a non-blank line, or with one that is not indented, Dedent
      only trims. */
  lemma NoCommonIndentOnlyTrims(s: string)
    requires var lines := Split(s, "\n");
      (forall i :: 0 <= i < |lines| ==> Blank(lines[i]))
      || (exists i :: 0 <= i < |lines| && !Blank(lines[i]) && Indent(lines[i]) == 0)
    ensures Dedented(s) == TrimSpace(s)
  {
    MinIndentIsLeast(Split(s, "\n"));
  }

  /** A non-blank line loses exactly the common indent, which is made of
      spaces and tabs; its further indentation stays. */
  lemma NonBlankLineLosesCommonIndent(s: string, i: int)
    requires var lines := Split(s, "\n"); 0 <= i < |lines| && !Blank(lines[i])
    ensures MinIndent(Split(s, "\n")).Some?
    ensures var lines := Split(s, "\n"); var m := MinIndent(lines).value;
      && |lines[i]| >= m
      && lines[i] == lines[i][..m] + Strip(lines[i], m)
      && (forall k :: 0 <= k < m ==> IsBlank(lines[i][k]))
      && Indent(Strip(lines[i], m)) == Indent(lines[i]) - m
  {
    var lines := Split(s, "\n");
    MinIndentIsLeast(lines);
    LineLosesIndent(lines[i], MinIndent(lines).value);
  }

  /** A non-blank line indented by at least m loses m blanks and keeps the
      rest of its indentation. */
  lemma LineLosesIndent(line: string, m: nat)
    requires !Blank(line) && m <= Indent(line)
    ensures && |line| >= m
      && line == line[..m] + Strip(line, m)
      && (forall k :: 0 <= k < m ==> IsBlank(line[k]))
      && Indent(Strip(line, m)) == Indent(line) - m
  {
    var t := TrimLeftBlank(line);
    var rest := line[m..];
    assert line == line[..m] + rest;
    assert rest[|rest| - |t|..] == t;
    TrimLeftBlankOfIndented(rest, |rest| - |t|);
  }

  /** TrimLeftBlank drops exactly a leading run of blanks followed by a
      non-blank character. */
  lemma {:induction false} TrimLeftBlankOfIndented(s: string, k: nat)
    requires k <= |s| && (forall j :: 0 <= j < k ==> IsBlank(s[j])) && (k == |s| || !IsBlank(s[k]))
    decreases k
    ensures TrimLeftBlank(s) == s[k..]
  {
    if k > 0 {
      TrimLeftBlankOfIndented(s[1..], k - 1);
      assert s[1..][k - 1..] == s[k..];
    }
  }

  /** A blank line shorter than the common indent comes out empty. */
  lemma ShortBlankLineBecomesEmpty(line: string, m: nat)
    requires Blank(line) && |line| < m
    ensures Strip(line, m) == ""
  {
  }

  /** The first line of a trimmed text is not indented. */
  lemma FirstLineOfTrimmed(r: string)
    requires r != [] && !IsSpace(r[0])
    ensures var lines := Split(r, "\n"); !Blank(lines[0]) && Indent(lines[0]) == 0
  {
    var lines := Split(r, "\n");
    OccursChar(r, '\n', 0);
    match Index(r, "\n")
    case None =>
    case Some(i) =>
      assert i != 0;
      assert lines[0] == r[..i];
  }

  /** Dedent is idempotent: its output starts with an unindented line, so
      a second pass only trims, and the output is already trimmed. */
  lemma DedentIdempotent(s: string)
    ensures Dedented(Dedented(s)) == Dedented(s)
  {
    var r := Dedented(s);
    DedentedTrimmed(s);
    TrimSpaceOfTrimmed(r);
    if r == [] {
      assert Split(r, "\n") == [""];
      assert Blank("");
    } else {
      FirstLineOfTrimmed(r);
      NoCommonIndentOnlyTrims(r);
    }
  }
}
