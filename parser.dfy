/** The keyword splitter of the older test-file format
    (testmanager/parser/parser.go): comment lines are dropped, the text is
    rendered as a template (a parameter here), and then cut into the query,
    RETURNS, an optional OPTION … ENDOPTS block and STORE entries. */
module Parser {
  import opened Wrappers
  import opened Strs
  import opened ParserFile

  const Returns := "RETURNS"
  const EndOpts := "ENDOPTS"
  const OptionKeyword := "OPTION"
  const StoreKeyword := "STORE"

  /** The runtime panic of reading element 1 of a one-element slice. */
  const IndexPanic := "runtime error: index out of range [1] with length 1"

  /** Parse either returns an error (a failed render) or panics. */
  datatype ParseError = RenderFailed(message: string) | Panicked(reason: string)

  // -----------------------------------------------------------------------
  // removeComments

  predicate IsComment(line: string) {
    HasPrefix(line, "//")
  }

  /** The lines that are not comments, in their order. */
  function KeptLines(lines: seq<string>): (r: seq<string>)
    ensures |r| <= |lines|
  {
    if lines == [] then []
    else
      var last := lines[|lines| - 1];
      KeptLines(lines[..|lines| - 1]) + (if IsComment(last) then [] else [last])
  }

  /** The text removeComments returns. */
  function Uncommented(s: string): string {
    Join(KeptLines(Split(s, "\n")), "\n")
  }

  /** removeComments. */
  method RemoveComments(s: string) returns (r: string)
    ensures r == Uncommented(s)
  {
    var lines := Split(s, "\n");
    var ret: seq<string> := [];
    for i := 0 to |lines|
      invariant ret == KeptLines(lines[..i])
    {
      assert lines[..i + 1][..i] == lines[..i];
      if !IsComment(lines[i]) {
        ret := ret + [lines[i]];
      }
    }
    assert lines[..|lines|] == lines;
    r := Join(ret, "\n");
  }

  /** Exactly the non-comment lines are kept. */
  lemma {:induction false} KeptLinesFilter(lines: seq<string>)
    ensures forall l :: l in KeptLines(lines) <==> l in lines && !IsComment(l)
  {
    if lines != [] {
      var init := lines[..|lines| - 1];
      KeptLinesFilter(init);
      assert lines == init + [lines[|lines| - 1]];
    }
  }

  /** Without comment lines the text is unchanged. */
  lemma {:induction false} KeptLinesNoComments(lines: seq<string>)
    requires forall k :: 0 <= k < |lines| ==> !IsComment(lines[k])
    ensures KeptLines(lines) == lines
  {
    if lines != [] {
      KeptLinesNoComments(lines[..|lines| - 1]);
    }
  }

  lemma NoCommentsUnchanged(s: string)
    requires forall k :: 0 <= k < |Split(s, "\n")| ==> !IsComment(Split(s, "\n")[k])
    ensures Uncommented(s) == s
  {
    KeptLinesNoComments(Split(s, "\n"));
    JoinSplit(s, "\n");
  }

  /** Removing comments twice removes nothing more. */
  lemma UncommentedIdempotent(s: string)
    ensures Uncommented(Uncommented(s)) == Uncommented(s)
  {
    var lines := Split(s, "\n");
    var kept := KeptLines(lines);
    KeptLinesFilter(lines);
    SplitPiecesFree(s, "\n");
    if kept == [] {
      assert Uncommented(s) == "";
      assert Split("", "\n") == [""];
      assert KeptLines([""]) == KeptLines([]) + [""];
    } else {
      forall k | 0 <= k < |kept| ensures !Contains(kept[k], "\n") && !IsComment(kept[k]) {
        assert kept[k] in lines;
        var m :| 0 <= m < |lines| && lines[m] == kept[k];
      }
      SplitJoin(kept, "\n");
      KeptLinesNoComments(kept);
    }
  }

  // -----------------------------------------------------------------------
  // OPTION and STORE chunks

  /** What one chunk of the OPTION or STORE loop does to its map: nothing,
      one assignment, or a panic on a missing "=". */
  datatype Chunk = Skip | Pair(key: string, value: string) | Broken

  /** An OPTION chunk: blank chunks are skipped, the rest is cut at its
      first "=" into a trimmed path and option. */
  function OptionChunk(o: string): Chunk {
    if TrimSpace(o) == "" then Skip
    else
      var ps := SplitFirst(o, "=");
      if |ps| < 2 then Broken else Pair(TrimSpace(ps[0]), TrimSpace(ps[1]))
  }

  /** A STORE chunk: the trimmed chunk is split at every "=" and only the
      first two pieces are used; blank chunks are not skipped. */
  function StoreChunk(s: string): Chunk {
    var sp := Split(TrimSpace(s), "=");
    if |sp| < 2 then Broken else Pair(TrimSpace(sp[0]), TrimSpace(sp[1]))
  }

  /** An option path never contains "="; the option after it may. */
  lemma OptionChunkShape(o: string)
    ensures OptionChunk(o).Pair? ==> !Contains(OptionChunk(o).key, "=")
    ensures OptionChunk(o).Broken? <==> TrimSpace(o) != "" && !Contains(o, "=")
  {
    if TrimSpace(o) != "" {
      var ps := SplitFirst(o, "=");
      if |ps| == 2 {
        TrimSpaceKeepsOut(ps[0], "=");
      }
    }
  }

  /** A store entry is broken exactly when it has no "="; otherwise its
      name and its path are both free of "=", so text after a second "="
      is dropped. */
  lemma StoreChunkShape(s: string)
    ensures StoreChunk(s).Broken? <==> !Contains(TrimSpace(s), "=")
    ensures StoreChunk(s).Pair? ==> !Contains(StoreChunk(s).key, "=") && !Contains(StoreChunk(s).value, "=")
  {
    var t := TrimSpace(s);
    var sp := Split(t, "=");
    SplitPiecesFree(t, "=");
    if |sp| >= 2 {
      TrimSpaceKeepsOut(sp[0], "=");
      TrimSpaceKeepsOut(sp[1], "=");
      assert Index(t, "=").Some?;
    } else {
      assert Index(t, "=").None?;
    }
  }

  function Interpret(isStore: bool, s: string): Chunk {
    if isStore then StoreChunk(s) else OptionChunk(s)
  }

  /** The chunks of one section, interpreted. */
  function Chunks(isStore: bool, ss: seq<string>): (r: seq<Chunk>)
    ensures |r| == |ss|
    ensures forall i :: 0 <= i < |ss| ==> r[i] == Interpret(isStore, ss[i])
  {
    seq(|ss|, i requires 0 <= i < |ss| => Interpret(isStore, ss[i]))
  }

  /** The map the loop builds from the chunks, or None when it panics. */
  function Collect(cs: seq<Chunk>): Option<map<string, string>> {
    if cs == [] then Some(map[])
    else
      match Collect(cs[..|cs| - 1])
      case None => None
      case Some(m) =>
        match cs[|cs| - 1]
        case Skip => Some(m)
        case Pair(k, v) => Some(m[k := v])
        case Broken => None
  }

  /** Chunk i is the last pair with its key. */
  predicate LastWith(cs: seq<Chunk>, i: int) {
    && 0 <= i < |cs|
    && cs[i].Pair?
    && forall j :: i < j < |cs| && cs[j].Pair? ==> cs[j].key != cs[i].key
  }

  /** The loop completes iff no chunk is broken. */
  lemma {:induction false} CollectCompletes(cs: seq<Chunk>)
    ensures Collect(cs).Some? <==> forall i :: 0 <= i < |cs| ==> !cs[i].Broken?
  {
    if cs != [] {
      var init := cs[..|cs| - 1];
      CollectCompletes(init);
      assert forall i :: 0 <= i < |init| ==> init[i] == cs[i];
    }
  }

  /** The map holds exactly the keys of the pairs. */
  lemma {:induction false} CollectKeys(cs: seq<Chunk>)
    requires Collect(cs).Some?
    ensures forall k :: k in Collect(cs).value <==> exists i :: 0 <= i < |cs| && cs[i].Pair? && cs[i].key == k
  {
    if cs != [] {
      var init := cs[..|cs| - 1];
      var n := |cs| - 1;
      CollectKeys(init);
      forall k ensures k in Collect(cs).value <==> exists i :: 0 <= i < |cs| && cs[i].Pair? && cs[i].key == k {
        if k in Collect(cs).value && !(cs[n].Pair? && cs[n].key == k) {
          var i :| 0 <= i < |init| && init[i].Pair? && init[i].key == k;
          assert cs[i] == init[i];
        }
        if exists i :: 0 <= i < |cs| && cs[i].Pair? && cs[i].key == k {
          var i :| 0 <= i < |cs| && cs[i].Pair? && cs[i].key == k;
          if i < n {
            assert init[i] == cs[i];
          }
        }
      }
    }
  }

  /** Each key holds the value of the last chunk naming it. */
  lemma {:induction false} CollectLastWins(cs: seq<Chunk>, i: int)
    requires Collect(cs).Some? && LastWith(cs, i)
    ensures cs[i].key in Collect(cs).value && Collect(cs).value[cs[i].key] == cs[i].value
  {
    var init := cs[..|cs| - 1];
    var n := |cs| - 1;
    if i < n {
      assert init[i] == cs[i];
      assert LastWith(init, i) by {
        forall j | i < j < |init| && init[j].Pair? ensures init[j].key != init[i].key {
          assert init[j] == cs[j];
        }
      }
      CollectLastWins(init, i);
    }
  }

  // -----------------------------------------------------------------------
  // Parse

  /** The File parsed from the rendered text. */
  function ParseRendered(str: string): (r: Result<File, ParseError>)
    ensures r.Err? ==> r.error == Panicked(IndexPanic)
  {
    var parts := SplitFirst(str, Returns);
    if |parts| < 2 then Err(Panicked(IndexPanic))
    else
      var optParts := SplitFirst(parts[1], EndOpts);
      var expected := optParts[|optParts| - 1];
      var opts := if |optParts| > 1 then Collect(Chunks(false, Split(optParts[0], OptionKeyword))) else Some(map[]);
      var srs := Split(expected, StoreKeyword);
      var store := Collect(Chunks(true, srs[1..]));
      if opts.None? || store.None? then Err(Panicked(IndexPanic))
      else Ok(File(TrimSpace(parts[0]), opts.value, TrimSpace(srs[0]), store.value))
  }

  /** What Parse does with the raw file and a template renderer. */
  function ParseText(b: string, render: string -> Result<string, string>): Result<File, ParseError> {
    match render(Uncommented(b))
    case Err(e) => Err(RenderFailed("parser.Parse: failed to render template: " + e))
    case Ok(str) => ParseRendered(str)
  }

  /** Once a loop has panicked, the later chunks do not matter. */
  lemma BrokenChunkPanics(cs: seq<Chunk>, i: int)
    requires 0 <= i < |cs| && cs[i].Broken?
    ensures Collect(cs).None?
  {
    CollectCompletes(cs);
  }

  lemma CollectSnoc(isStore: bool, cs: seq<string>, i: int)
    requires 0 <= i < |cs|
    ensures Collect(Chunks(isStore, cs[..i + 1])) ==
      match Collect(Chunks(isStore, cs[..i]))
      case None => None
      case Some(m) =>
        match Interpret(isStore, cs[i])
        case Skip => Some(m)
        case Pair(k, v) => Some(m[k := v])
        case Broken => None
  {
    var all := Chunks(isStore, cs[..i + 1]);
    assert all[..i] == Chunks(isStore, cs[..i]);
  }

  /** The loop over the chunks of one section, filling `m`. */
  method CollectChunks(isStore: bool, cs: seq<string>) returns (r: Option<map<string, string>>)
    ensures r == Collect(Chunks(isStore, cs))
  {
    var m: map<string, string> := map[];
    for i := 0 to |cs|
      invariant Collect(Chunks(isStore, cs[..i])) == Some(m)
    {
      CollectSnoc(isStore, cs, i);
      var c := cs[i];
      if isStore {
        var sp := Split(TrimSpace(c), "=");
        assert Interpret(isStore, c) == StoreChunk(c);
        if |sp| < 2 {
          BrokenChunkPanics(Chunks(isStore, cs), i);
          return None;
        }
        m := m[TrimSpace(sp[0]) := TrimSpace(sp[1])];
      } else if TrimSpace(c) != "" {
        var ps := SplitFirst(c, "=");
        assert Interpret(isStore, c) == OptionChunk(c);
        if |ps| < 2 {
          BrokenChunkPanics(Chunks(isStore, cs), i);
          return None;
        }
        m := m[TrimSpace(ps[0]) := TrimSpace(ps[1])];
      }
    }
    assert cs[..|cs|] == cs;
    return Some(m);
  }

  /** Parse. The template renderer is a parameter; a panic is returned
      as Panicked. */
  method Parse(b: string, render: string -> Result<string, string>) returns (r: Result<File, ParseError>)
    ensures r == ParseText(b, render)
  {
    var str := RemoveComments(b);
    var rendered := render(str);
    if rendered.Err? {
      return Err(RenderFailed("parser.Parse: failed to render template: " + rendered.error));
    }
    str := rendered.value;
    var parts := SplitFirst(str, Returns);
    if |parts| < 2 {
      return Err(Panicked(IndexPanic));
    }
    var query := TrimSpace(parts[0]);
    var optParts := SplitFirst(parts[1], EndOpts);
    var expected := optParts[|optParts| - 1];
    var opts: map<string, string> := map[];
    if |optParts| > 1 {
      var collected := CollectChunks(false, Split(optParts[0], OptionKeyword));
      if collected.None? {
        return Err(Panicked(IndexPanic));
      }
      opts := collected.value;
    }
    var srs := Split(expected, StoreKeyword);
    var store := CollectChunks(true, srs[1..]);
    if store.None? {
      return Err(Panicked(IndexPanic));
    }
    return Ok(File(query, opts, TrimSpace(srs[0]), store.value));
  }

  // -----------------------------------------------------------------------
  // Properties of Parse

  /** Text without RETURNS makes Parse panic. */
  lemma ReturnsIsRequired(str: string)
    requires !Contains(str, Returns)
    ensures ParseRendered(str) == Err(Panicked(IndexPanic))
  {
  }

  /** The query is the trimmed text before the first RETURNS, and the
      expected text contains no STORE keyword. */
  lemma ParsedSections(str: string)
    requires ParseRendered(str).Ok?
    ensures Index(str, Returns).Some?
    ensures ParseRendered(str).value.query == TrimSpace(str[..Index(str, Returns).value])
    ensures !Contains(ParseRendered(str).value.query, Returns)
    ensures !Contains(ParseRendered(str).value.returnsText, StoreKeyword)
  {
    var f := ParseRendered(str).value;
    var parts := SplitFirst(str, Returns);
    var optParts := SplitFirst(parts[1], EndOpts);
    var srs := Split(optParts[|optParts| - 1], StoreKeyword);
    assert f.query == TrimSpace(parts[0]) && f.returnsText == TrimSpace(srs[0]);
    var i := Index(str, Returns).value;
    assert parts[0] == str[..i];
    TrimSpaceKeepsOut(parts[0], Returns);
    SplitPiecesFree(optParts[|optParts| - 1], StoreKeyword);
    TrimSpaceKeepsOut(srs[0], StoreKeyword);
  }

  /** Without ENDOPTS no option is read, even when OPTION lines exist. */
  lemma OptionsNeedEndOpts(str: string)
    requires ParseRendered(str).Ok?
    requires !Contains(SplitFirst(str, Returns)[1], EndOpts)
    ensures ParseRendered(str).value.opts == map[]
  {
  }

  /** Parsed option paths and store names never contain "=", and store
      paths stop at a second "=". */
  lemma ParsedPairsShape(str: string)
    requires ParseRendered(str).Ok?
    ensures forall p :: p in ParseRendered(str).value.opts ==> !Contains(p, "=")
    ensures forall k :: k in ParseRendered(str).value.store ==>
      !Contains(k, "=") && !Contains(ParseRendered(str).value.store[k], "=")
  {
    var f := ParseRendered(str).value;
    var parts := SplitFirst(str, Returns);
    var optParts := SplitFirst(parts[1], EndOpts);
    var srs := Split(optParts[|optParts| - 1], StoreKeyword);
    var stores := Chunks(true, srs[1..]);
    assert Collect(stores) == Some(f.store);
    CollectKeys(stores);
    forall k | k in f.store ensures !Contains(k, "=") && !Contains(f.store[k], "=") {
      var i :| 0 <= i < |stores| && stores[i].Pair? && stores[i].key == k;
      var last := LastIndexOf(stores, i);
      CollectLastWins(stores, last);
      StoreChunkShape(srs[1..][last]);
    }
    if |optParts| > 1 {
      var chunks := Chunks(false, Split(optParts[0], OptionKeyword));
      assert Collect(chunks) == Some(f.opts);
      CollectKeys(chunks);
      forall p | p in f.opts ensures !Contains(p, "=") {
        var i :| 0 <= i < |chunks| && chunks[i].Pair? && chunks[i].key == p;
        OptionChunkShape(Split(optParts[0], OptionKeyword)[i]);
      }
    }
  }

  /** The last chunk with the key of chunk i. */
  lemma {:induction false} LastIndexOf(cs: seq<Chunk>, i: int) returns (last: int)
    requires 0 <= i < |cs| && cs[i].Pair?
    decreases |cs| - i
    ensures i <= last && LastWith(cs, last) && cs[last].key == cs[i].key
  {
    if LastWith(cs, i) {
      last := i;
    } else {
      var j :| i < j < |cs| && cs[j].Pair? && cs[j].key == cs[i].key;
      last := LastIndexOf(cs, j);
    }
  }
}
