/** The parts of Go's `strings` and `strconv` packages (and of JavaScript's
    string methods) that the harness relies on, over `seq<char>`. */
module Strs {
  import opened Wrappers

  predicate HasPrefix(s: string, p: string) {
    |p| <= |s| && s[..|p|] == p
  }

  predicate HasSuffix(s: string, p: string) {
    |p| <= |s| && s[|s| - |p|..] == p
  }

  /** `sub` occurs in `s` starting at index `i`. */
  predicate OccursAt(s: string, sub: string, i: nat) {
    i + |sub| <= |s| && s[i..i + |sub|] == sub
  }

  predicate Contains(s: string, sub: string) {
    exists i: nat | i <= |s| :: OccursAt(s, sub, i)
  }

  /** The first occurrence of `sub` at or after `from`. */
  function IndexFrom(s: string, sub: string, from: nat): (r: Option<nat>)
    requires from <= |s|
    decreases |s| - from
    ensures r.Some? ==> from <= r.value && OccursAt(s, sub, r.value)
    ensures r.Some? ==> forall j: nat :: from <= j < r.value ==> !OccursAt(s, sub, j)
    ensures r.None? ==> forall j: nat :: from <= j ==> !OccursAt(s, sub, j)
  {
    if OccursAt(s, sub, from) then Some(from)
    else if from == |s| then None
    else IndexFrom(s, sub, from + 1)
  }

  /** strings.Index: the first occurrence of `sub` in `s`, if any. */
  function Index(s: string, sub: string): (r: Option<nat>)
    ensures r.Some? <==> Contains(s, sub)
    ensures r.Some? ==> OccursAt(s, sub, r.value)
    ensures r.Some? ==> forall j: nat :: j < r.value ==> !OccursAt(s, sub, j)
  {
    IndexFrom(s, sub, 0)
  }

  /** An occurrence with none before it is the one Index finds. */
  lemma IndexIsFirst(s: string, sub: string, i: nat)
    requires OccursAt(s, sub, i)
    requires forall j: nat :: j < i ==> !OccursAt(s, sub, j)
    ensures Index(s, sub) == Some(i)
  {
    assert Contains(s, sub);
    var r := Index(s, sub).value;
    assert !(r < i);
  }

  /** strings.Split for a non-empty separator: the pieces between the
      occurrences of `sep`, left to right. */
  function Split(s: string, sep: string): (parts: seq<string>)
    requires sep != []
    decreases |s|
    ensures |parts| >= 1
  {
    match Index(s, sep)
    case None => [s]
    case Some(i) => [s[..i]] + Split(s[i + |sep|..], sep)
  }

  /** strings.SplitN(s, sep, 2): cut at the first occurrence only. */
  function SplitFirst(s: string, sep: string): (parts: seq<string>)
    requires sep != []
    ensures 1 <= |parts| <= 2
    ensures |parts| == 1 <==> !Contains(s, sep)
    ensures |parts| == 1 ==> parts[0] == s
    ensures |parts| == 2 ==> parts[0] + sep + parts[1] == s && !Contains(parts[0], sep)
  {
    var idx := Index(s, sep);
    if idx.None? then [s]
    else
      var i := idx.value;
      var head, tail := s[..i], s[i + |sep|..];
      assert s == head + s[i..i + |sep|] + tail;
      PrefixBeforeFirstIsFree(s, sep, i);
      [head, tail]
  }

  /** The text before the first occurrence of `sep` does not contain it. */
  lemma PrefixBeforeFirstIsFree(s: string, sep: string, i: nat)
    requires sep != [] && i <= |s|
    requires forall j: nat :: j < i ==> !OccursAt(s, sep, j)
    ensures !Contains(s[..i], sep)
  {
    var head := s[..i];
    forall j: nat | j <= |head| && OccursAt(head, sep, j) ensures false {
      assert s[j..j + |sep|] == head[j..j + |sep|];
      assert OccursAt(s, sep, j);
    }
  }

  /** strings.Join. */
  function Join(parts: seq<string>, sep: string): string {
    if |parts| == 0 then ""
    else if |parts| == 1 then parts[0]
    else parts[0] + sep + Join(parts[1..], sep)
  }

  /** Splitting and joining with the same separator gives back the input. */
  lemma {:induction false} JoinSplit(s: string, sep: string)
    requires sep != []
    decreases |s|
    ensures Join(Split(s, sep), sep) == s
  {
    var idx := Index(s, sep);
    if idx.Some? {
      var i := idx.value;
      var rest := s[i + |sep|..];
      var tail := Split(rest, sep);
      assert Join(tail, sep) == rest by { JoinSplit(rest, sep); }
      assert Split(s, sep) == [s[..i]] + tail;
      JoinCons(s[..i], tail, sep);
      assert s == s[..i] + sep + rest by {
        assert s == s[..i] + s[i..i + |sep|] + rest;
      }
    }
  }

  lemma JoinCons(head: string, tail: seq<string>, sep: string)
    requires tail != []
    ensures Join([head] + tail, sep) == head + sep + Join(tail, sep)
  {
    assert ([head] + tail)[1..] == tail;
  }

  /** No piece produced by Split contains the separator. */
  lemma {:induction false} SplitPiecesFree(s: string, sep: string)
    requires sep != []
    decreases |s|
    ensures forall k :: 0 <= k < |Split(s, sep)| ==> !Contains(Split(s, sep)[k], sep)
  {
    var idx := Index(s, sep);
    if idx.Some? {
      var i := idx.value;
      SplitPiecesFree(s[i + |sep|..], sep);
      PrefixBeforeFirstIsFree(s, sep, i);
    }
  }

  /** Joining pieces free of a one-character separator and splitting
      again gives back the pieces. */
  lemma {:induction false} SplitJoin(parts: seq<string>, sep: string)
    requires |sep| == 1 && |parts| >= 1
    requires forall k :: 0 <= k < |parts| ==> !Contains(parts[k], sep)
    decreases |parts|
    ensures Split(Join(parts, sep), sep) == parts
  {
    var h := parts[0];
    if |parts| == 1 {
      assert Join(parts, sep) == h;
    } else {
      var rest := Join(parts[1..], sep);
      var s := h + sep + rest;
      assert Join(parts, sep) == s;
      assert s[|h|..|h| + 1] == sep;
      forall j: nat | j < |h| ensures !OccursAt(s, sep, j) {
        assert !OccursAt(h, sep, j);
        assert s[j..j + 1] == h[j..j + 1];
      }
      IndexIsFirst(s, sep, |h|);
      assert s[..|h|] == h;
      assert s[|h| + 1..] == rest;
      SplitJoin(parts[1..], sep);
    }
  }

  /** A one-character separator occurs exactly where that character is. */
  lemma OccursChar(s: string, c: char, j: nat)
    ensures OccursAt(s, [c], j) <==> j < |s| && s[j] == c
  {
    if j < |s| && s[j] == c {
      assert s[j..j + 1] == [c];
    }
  }

  /** Splitting at the first occurrence of a character. */
  lemma SplitAtChar(s: string, c: char, i: nat)
    requires i < |s| && s[i] == c && forall j :: 0 <= j < i ==> s[j] != c
    ensures Split(s, [c]) == [s[..i]] + Split(s[i + 1..], [c])
  {
    OccursChar(s, c, i);
    forall j: nat | j < i ensures !OccursAt(s, [c], j) {
      OccursChar(s, c, j);
    }
    IndexIsFirst(s, [c], i);
  }

  /** A string without the character splits into itself. */
  lemma SplitNoChar(s: string, c: char)
    requires c !in s
    ensures Split(s, [c]) == [s]
  {
    forall j: nat | j <= |s| ensures !OccursAt(s, [c], j) {
      OccursChar(s, c, j);
    }
  }

  /** A slice of a string free of `sub` is free of it too. */
  lemma SliceKeepsOut(s: string, a: nat, b: nat, sub: string)
    requires a <= b <= |s| && !Contains(s, sub)
    ensures !Contains(s[a..b], sub)
  {
    var t := s[a..b];
    forall j: nat | j <= |t| && OccursAt(t, sub, j) ensures false {
      assert j + |sub| <= |t|;
      forall k | 0 <= k < |sub| ensures s[a + j + k] == sub[k] {
        assert t[j..j + |sub|][k] == t[j + k];
      }
      assert s[a + j..a + j + |sub|] == sub;
      assert OccursAt(s, sub, a + j);
    }
  }

  /** Joining one more piece. */
  lemma {:induction false} JoinSnoc(xs: seq<string>, x: string, sep: string)
    requires xs != []
    decreases |xs|
    ensures Join(xs + [x], sep) == Join(xs, sep) + sep + x
  {
    if |xs| > 1 {
      assert (xs + [x])[1..] == xs[1..] + [x];
      JoinSnoc(xs[1..], x, sep);
    }
  }

  // ---------------------------------------------------------------------
  // Lines

  predicate NoNewline(s: string) {
    forall i :: 0 <= i < |s| ==> s[i] != '\n'
  }

  /** Lines written one after another, each followed by "\n". */
  function Unlines(ls: seq<string>): string {
    if ls == [] then "" else Unlines(ls[..|ls| - 1]) + ls[|ls| - 1] + "\n"
  }

  lemma {:induction false} UnlinesAppend(a: seq<string>, b: seq<string>)
    decreases |b|
    ensures Unlines(a + b) == Unlines(a) + Unlines(b)
  {
    if b == [] {
      assert a + b == a;
    } else {
      var n := |b| - 1;
      assert (a + b)[..|a + b| - 1] == a + b[..n];
      assert (a + b)[|a + b| - 1] == b[n];
      UnlinesAppend(a, b[..n]);
    }
  }

  /** Concatenation regrouped; the verifier finds this only by comparing
      the strings character by character. */
  lemma ConcatAssoc(a: string, b: string, c: string)
    ensures a + b + c == a + (b + c)
  {
  }

  lemma UnlinesSnoc(ls: seq<string>, l: string)
    ensures Unlines(ls + [l]) == Unlines(ls) + l + "\n"
  {
    assert (ls + [l])[..|ls|] == ls;
  }

  lemma UnlinesOne(l: string)
    ensures Unlines([l]) == l + "\n"
  {
    UnlinesSnoc([], l);
    assert [] + [l] == [l];
  }

  lemma UnlinesCons(l: string, rest: seq<string>)
    ensures Unlines([l] + rest) == l + "\n" + Unlines(rest)
  {
    UnlinesAppend([l], rest);
    assert [l][..0] == [];
  }

  /** Splitting at the end of a first line. */
  lemma SplitLine(l: string, u: string)
    requires NoNewline(l)
    ensures Split(l + "\n" + u, "\n") == [l] + Split(u, "\n")
  {
    var s := l + "\n" + u;
    assert s[|l|] == '\n';
    assert forall j :: 0 <= j < |l| ==> s[j] != '\n';
    SplitAtChar(s, '\n', |l|);
    assert s[..|l|] == l;
    assert s[|l| + 1..] == u;
  }

  /** Text written as lines splits back into those lines (and the empty
      text after the last newline). */
  lemma {:induction false} SplitUnlines(ls: seq<string>)
    requires forall k :: 0 <= k < |ls| ==> NoNewline(ls[k])
    decreases |ls|
    ensures Split(Unlines(ls), "\n") == ls + [""]
  {
    if ls == [] {
      SplitNoChar("", '\n');
    } else {
      var rest := ls[1..];
      assert ls == [ls[0]] + rest;
      UnlinesCons(ls[0], rest);
      SplitLine(ls[0], Unlines(rest));
      SplitUnlines(rest);
    }
  }

  // ---------------------------------------------------------------------
  // Trimming a given character or suffix

  /** strings.TrimRight(s, [c]): every trailing c removed. */
  function TrimRightChar(s: string, c: char): (r: string)
    ensures |r| <= |s| && (forall i :: 0 <= i < |r| ==> r[i] == s[i])
    ensures forall i :: |r| <= i < |s| ==> s[i] == c
    ensures r == [] || r[|r| - 1] != c
  {
    if s != [] && s[|s| - 1] == c then TrimRightChar(s[..|s| - 1], c) else s
  }

  /** strings.TrimSuffix: the suffix removed once, if present. */
  function TrimSuffix(s: string, suffix: string): string {
    if HasSuffix(s, suffix) then s[..|s| - |suffix|] else s
  }

  // ---------------------------------------------------------------------
  // White space

  /** unicode.IsSpace: tab, newline, vertical tab, form feed, carriage
      return, space, NEL and NBSP, and beyond Latin-1 the other characters
      of Unicode's White_Space property (ogham space mark, the spaces
      U+2000 to U+200A, line and paragraph separators, narrow NBSP, medium
      mathematical space and ideographic space). */
  predicate IsSpace(c: char) {
    c == '\t' || c == '\n' || c == '\U{B}' || c == '\U{C}' || c == '\r'
    || c == ' ' || c == '\U{85}' || c == '\U{A0}'
    || c == '\U{1680}' || ('\U{2000}' <= c <= '\U{200A}')
    || c == '\U{2028}' || c == '\U{2029}' || c == '\U{202F}' || c == '\U{205F}' || c == '\U{3000}'
  }

  /** A character of the cutset " \t" used by strings.TrimLeft in the harness. */
  predicate IsBlank(c: char) {
    c == ' ' || c == '\t'
  }

  /** The number of leading white-space characters. */
  function LeadingSpace(s: string): (n: nat)
    ensures n <= |s| && (forall i :: 0 <= i < n ==> IsSpace(s[i])) && (n < |s| ==> !IsSpace(s[n]))
  {
    if s != [] && IsSpace(s[0]) then 1 + LeadingSpace(s[1..]) else 0
  }

  /** The number of trailing white-space characters. */
  function TrailingSpace(s: string): (n: nat)
    ensures n <= |s| && (forall i :: |s| - n <= i < |s| ==> IsSpace(s[i])) && (n < |s| ==> !IsSpace(s[|s| - n - 1]))
  {
    if s != [] && IsSpace(s[|s| - 1]) then 1 + TrailingSpace(s[..|s| - 1]) else 0
  }

  function TrimLeftSpace(s: string): (r: string)
    ensures |r| <= |s| && forall i :: 0 <= i < |r| ==> r[i] == s[|s| - |r| + i]
    ensures r == [] || !IsSpace(r[0])
    ensures forall i :: 0 <= i < |s| - |r| ==> IsSpace(s[i])
  {
    s[LeadingSpace(s)..]
  }

  function TrimRightSpace(s: string): (r: string)
    ensures |r| <= |s| && forall i :: 0 <= i < |r| ==> r[i] == s[i]
    ensures r == [] || !IsSpace(r[|r| - 1])
    ensures forall i :: |r| <= i < |s| ==> IsSpace(s[i])
  {
    s[..|s| - TrailingSpace(s)]
  }

  /** strings.TrimSpace. */
  function TrimSpace(s: string): (r: string)
    ensures LeadingSpace(s) + |r| <= |s| && r == s[LeadingSpace(s)..LeadingSpace(s) + |r|]
    ensures forall i :: LeadingSpace(s) + |r| <= i < |s| ==> IsSpace(s[i])
    ensures r == [] || (!IsSpace(r[0]) && !IsSpace(r[|r| - 1]))
  {
    TrimRightSpace(TrimLeftSpace(s))
  }

  /** TrimSpace leaves no white space at either end. */
  lemma TrimSpaceEnds(s: string)
    ensures TrimSpace(s) == [] || (!IsSpace(TrimSpace(s)[0]) && !IsSpace(TrimSpace(s)[|TrimSpace(s)| - 1]))
  {
  }

  /** strings.TrimLeft(s, " \t"). */
  function TrimLeftBlank(s: string): (r: string)
    ensures |r| <= |s| && forall i :: 0 <= i < |r| ==> r[i] == s[|s| - |r| + i]
    ensures r == [] || !IsBlank(r[0])
    ensures forall i :: 0 <= i < |s| - |r| ==> IsBlank(s[i])
  {
    s[LeadingBlank(s)..]
  }

  /** The number of leading blanks. */
  function LeadingBlank(s: string): (n: nat)
    ensures n <= |s| && (forall i :: 0 <= i < n ==> IsBlank(s[i])) && (n < |s| ==> !IsBlank(s[n]))
  {
    if s != [] && IsBlank(s[0]) then 1 + LeadingBlank(s[1..]) else 0
  }

  /** A string with no white space at either end is its own TrimSpace. */
  lemma TrimSpaceOfTrimmed(s: string)
    requires s == [] || (!IsSpace(s[0]) && !IsSpace(s[|s| - 1]))
    ensures TrimSpace(s) == s
  {
  }

  /** Trimming never brings in an occurrence of `sub`. */
  lemma TrimSpaceKeepsOut(s: string, sub: string)
    requires !Contains(s, sub)
    ensures !Contains(TrimSpace(s), sub)
  {
    var l := TrimLeftSpace(s);
    SliceKeepsOut(s, |s| - |l|, |s|, sub);
    assert s[|s| - |l|..|s|] == l;
    SliceKeepsOut(l, 0, |TrimRightSpace(l)|, sub);
    assert l[..|TrimRightSpace(l)|] == TrimRightSpace(l);
  }

  lemma TrimSpaceIdempotent(s: string)
    ensures TrimSpace(TrimSpace(s)) == TrimSpace(s)
  {
    TrimSpaceEnds(s);
    TrimSpaceOfTrimmed(TrimSpace(s));
  }

  // ---------------------------------------------------------------------
  // Case

  /** String.prototype.toLowerCase on the Latin-1 range: A to Z and the
      accented capitals U+00C0 to U+00DE (except the multiplication sign
      U+00D7) move down by 32; every other character is kept. */
  function LowerChar(c: char): char {
    if 'A' <= c <= 'Z' || ('\U{C0}' <= c <= '\U{DE}' && c != '\U{D7}') then (c as int + 32) as char else c
  }

  function ToLower(s: string): (r: string)
    ensures |r| == |s|
    ensures forall i :: 0 <= i < |s| ==> r[i] == LowerChar(s[i])
  {
    if s == [] then [] else [LowerChar(s[0])] + ToLower(s[1..])
  }

  // ---------------------------------------------------------------------
  // Quoting

  /** Lower-case hexadecimal digit. */
  function HexDigit(d: nat): char
    requires d < 16
  {
    "0123456789abcdef"[d]
  }

  /** The characters strconv.Quote escapes. */
  predicate NeedsEscape(c: char) {
    c == '\\' || c == '"' || c < ' ' || c == '\U{7F}' || ('\U{80}' <= c <= '\U{A0}') || c == '\U{AD}'
  }

  /** One character as strconv.Quote writes it: backslash and double
      quote escaped, the seven C escapes \a \b \f \n \r \t \v, any other
      ASCII control character and DEL as \xHH, and the Latin-1 characters
      unicode.IsPrint rejects (U+0080 to U+00A0 and the soft hyphen U+00AD)
      as \u00HH. */
  function QuoteChar(c: char): (r: string)
    ensures |r| >= 1
    ensures r[0] == '\\' <==> NeedsEscape(c)
  {
    if c == '"' then "\\\"" else if c == '\\' then "\\\\"
    else if c == '\U{7}' then "\\a" else if c == '\U{8}' then "\\b"
    else if c == '\U{C}' then "\\f" else if c == '\n' then "\\n"
    else if c == '\r' then "\\r" else if c == '\t' then "\\t"
    else if c == '\U{B}' then "\\v"
    else if c < ' ' || c == '\U{7F}' then "\\x" + [HexDigit(c as int / 16), HexDigit(c as int % 16)]
    else if ('\U{80}' <= c <= '\U{A0}') || c == '\U{AD}' then "\\u00" + [HexDigit(c as int / 16), HexDigit(c as int % 16)]
    else [c]
  }

  function QuoteBody(s: string): string {
    if s == [] then "" else QuoteChar(s[0]) + QuoteBody(s[1..])
  }

  /** strconv.Quote, as used by the %q verb. */
  function Quote(s: string): (r: string)
    ensures |r| >= 2 && r[0] == '"' && r[|r| - 1] == '"'
  {
    "\"" + QuoteBody(s) + "\""
  }

  // ---------------------------------------------------------------------
  // Decimal integers (strconv.Itoa / strconv.Atoi)

  predicate IsDigit(c: char) {
    '0' <= c <= '9'
  }

  function DigitChar(d: nat): char
    requires d < 10
  {
    ('0' as int + d) as char
  }

  function DigitValue(c: char): nat
    requires IsDigit(c)
  {
    c as int - '0' as int
  }

  predicate AllDigits(s: string) {
    forall i :: 0 <= i < |s| ==> IsDigit(s[i])
  }

  function DigitsValue(s: string): nat
    requires AllDigits(s)
  {
    if s == [] then 0
    else DigitsValue(s[..|s| - 1]) * 10 + DigitValue(s[|s| - 1])
  }

  function NatDigits(n: nat): (r: string)
    ensures r != []
    ensures forall i :: 0 <= i < |r| ==> IsDigit(r[i])
  {
    if n < 10 then [DigitChar(n)] else NatDigits(n / 10) + [DigitChar(n % 10)]
  }

  /** strconv.Itoa. */
  function Itoa(n: int): string {
    if n < 0 then "-" + NatDigits(-n) else NatDigits(n)
  }

  /** strconv.Atoi: an optional sign followed by at least one decimal digit.
      (Out-of-range errors for values beyond 64 bits are not modelled.) */
  function Atoi(s: string): (r: Option<int>)
    ensures r.Some? ==> s != [] && IsDigit(s[|s| - 1])
    ensures r.Some? && s[0] != '-' ==> r.value >= 0
  {
    var signed := s != [] && (s[0] == '-' || s[0] == '+');
    var sign := if signed then s[..1] else "";
    var body := if signed then s[1..] else s;
    if body == [] || !AllDigits(body) then None
    else
      var magnitude: int := DigitsValue(body);
      if sign == "-" then Some(-magnitude) else Some(magnitude)
  }

  /** A string starting with neither a sign nor a digit is not a number. */
  lemma AtoiRejects(s: string)
    requires s != [] && !IsDigit(s[0]) && s[0] != '-' && s[0] != '+'
    ensures Atoi(s).None?
  {
    assert !AllDigits(s);
  }

  lemma {:induction false} DigitsRoundTrip(n: nat)
    ensures DigitsValue(NatDigits(n)) == n
  {
    if n >= 10 {
      DigitsRoundTrip(n / 10);
      var r := NatDigits(n);
      assert r[..|r| - 1] == NatDigits(n / 10);
    }
  }

  lemma AtoiOfDigits(d: string)
    requires d != [] && AllDigits(d)
    ensures Atoi(d) == Some(DigitsValue(d))
  {
    assert IsDigit(d[0]);
  }

  lemma AtoiOfNegative(d: string)
    requires d != [] && AllDigits(d)
    ensures Atoi("-" + d) == Some(-(DigitsValue(d) as int))
  {
    var s := "-" + d;
    assert s[0] == '-' && s[..1] == "-" && s[1..] == d;
  }

  /** Atoi reads back what Itoa writes: list indices survive the trip
      through a dotted path string. */
  lemma AtoiItoa(n: int)
    ensures Atoi(Itoa(n)) == Some(n)
  {
    if n < 0 {
      var d := NatDigits(-n);
      DigitsRoundTrip(-n);
      AtoiOfNegative(d);
      assert Itoa(n) == "-" + d;
    } else {
      var d := NatDigits(n);
      DigitsRoundTrip(n);
      AtoiOfDigits(d);
      assert Itoa(n) == d;
    }
  }

  /** Itoa never writes a '.', so an index is always one path segment. */
  lemma ItoaHasNoDot(n: int)
    ensures forall i :: 0 <= i < |Itoa(n)| ==> Itoa(n)[i] != '.'
  {
  }

  // -----------------------------------------------------------------------
  // Ordering

  /** Lexicographic order on code points: strings.Compare(a, b) < 0 in Go,
      whose UTF-8 byte order agrees with it. */
  predicate Less(a: string, b: string) {
    b != [] && (a == [] || a[0] < b[0] || (a[0] == b[0] && Less(a[1..], b[1..])))
  }

  lemma {:induction false} LessIrreflexive(a: string)
    ensures !Less(a, a)
  {
    if a != [] {
      LessIrreflexive(a[1..]);
    }
  }

  lemma {:induction false} LessTotal(a: string, b: string)
    ensures a == b || Less(a, b) || Less(b, a)
  {
    if a != [] && b != [] && a[0] == b[0] {
      LessTotal(a[1..], b[1..]);
      if a[1..] == b[1..] {
        assert a == [a[0]] + a[1..] && b == [b[0]] + b[1..];
      }
    }
  }

  lemma {:induction false} LessTrans(a: string, b: string, c: string)
    requires Less(a, b) && Less(b, c)
    ensures Less(a, c)
  {
    if a != [] && a[0] == b[0] && b[0] == c[0] {
      LessTrans(a[1..], b[1..], c[1..]);
    }
  }

  /** "Not after" is transitive: Less is a strict total order. */
  lemma NotLessTrans(a: string, b: string, c: string)
    requires !Less(b, a) && !Less(c, b)
    ensures !Less(c, a)
  {
    if Less(c, a) {
      LessTotal(a, b);
      if a == b {
      } else {
        LessTrans(c, a, b);
      }
    }
  }

  lemma LessAsymmetric(a: string, b: string)
    requires Less(a, b)
    ensures !Less(b, a)
  {
    if Less(b, a) {
      LessTrans(a, b, a);
      LessIrreflexive(a);
    }
  }
}
