/** The path walk of `appendStore` (lua/runner/check.go and
    testmanager/parser/file.go): a dotted path is split on "." and followed
    through nested maps; a segment followed by a decimal segment is read as
    a list, the decimal segment as the index and the element as the next
    map. */
module Store {
  import opened Wrappers
  import opened Strs
  import opened Values
  import opened Matcher

  /** The value the walk hands to the save callback, or the reason the Go
      code panics (a failed type assertion or an index out of range). */
  datatype Lookup = Found(value: Value) | Stuck(reason: string)

  /** The Go type a decoded JSON value has behind `interface {}`, as the
      runtime names it in a failed type assertion. */
  function DynamicType(v: Value): string {
    match v
    case Nil => "nil"
    case Bool(_) => "bool"
    case Int(_) => "int"
    case Float(_) => "float64"
    case Str(_) => "string"
    case List(_) => "[]interface {}"
    case Map(_) => "map[string]interface {}"
    case AnyMap(_) => "map[interface {}]interface {}"
  }

  /** The panic messages of the Go runtime the walk can end with: a failed
      type assertion names the dynamic type it found, and a bad index is
      shown with the slice's length unless it is negative. */
  function NotAList(v: Value): string {
    "interface conversion: interface {} is " + DynamicType(v) + ", not []interface {}"
  }

  function NotAMap(v: Value): string {
    "interface conversion: interface {} is " + DynamicType(v) + ", not map[string]interface {}"
  }

  function OutOfRange(i: int, length: nat): string {
    "runtime error: index out of range [" + Itoa(i) + "]"
      + (if i < 0 then "" else " with length " + Itoa(length))
  }

  /** Reading a Go map: a missing key gives nil. */
  function Get(m: map<string, Value>, k: string): Value {
    if k in m then m[k] else Nil
  }

  /** One step of the walk: its result, or the map and segment it goes
      on from. */
  datatype Move = Done(result: Lookup) | Next(fields: map<string, Value>, at: nat)

  /** The step at segment `i` with `root` as the current map: the last
      segment is read; a segment followed by a decimal segment (not the
      last) is a list whose element is the next map; any other segment
      moves into its value when that is a map and stays put otherwise. */
  function StepFrom(root: map<string, Value>, parts: seq<string>, i: nat): (m: Move)
    requires i < |parts|
    ensures m.Next? ==> i < m.at < |parts|
  {
    var index := if i < |parts| - 2 then Atoi(parts[i + 1]) else None;
    if i == |parts| - 1 then Done(Found(Get(root, parts[i])))
    else if index.Some? then
      var idx := index.value;
      match Get(root, parts[i])
      case List(items) =>
        if 0 <= idx < |items| then
          match items[idx]
          case Map(m) => Next(m, i + 2)
          case other => Done(Stuck(NotAMap(other)))
        else Done(Stuck(OutOfRange(idx, |items|)))
      case other => Done(Stuck(NotAList(other)))
    else
      var next := Get(root, parts[i]);
      Next(if next.Map? then next.fields else root, i + 1)
  }

  /** The walk from segment `i` with `root` as the current map. */
  function WalkFrom(root: map<string, Value>, parts: seq<string>, i: nat): Lookup
    requires i < |parts|
    decreases |parts| - i
  {
    match StepFrom(root, parts, i)
    case Done(r) => r
    case Next(m, j) => WalkFrom(m, parts, j)
  }

  /** The value saved for `path` in the response map `body`. */
  function Walk(body: map<string, Value>, path: string): Lookup {
    WalkFrom(body, Split(path, "."), 0)
  }

  /** The loop both appendStore functions run: split the path, follow it
      through `root`, and end with the value read at the last segment. */
  method Follow(root: map<string, Value>, path: string) returns (r: Lookup)
    ensures r == Walk(root, path)
  {
    var current := root;
    var parts := Split(path, ".");
    var val := Nil;
    var i := 0;
    while i < |parts|
      invariant i < |parts|
      invariant WalkFrom(current, parts, i) == Walk(root, path)
      decreases |parts| - i
    {
      if i == |parts| - 1 {
        val := Get(current, parts[i]);
        break;
      } else if i < |parts| - 2 {
        var index := Atoi(parts[i + 1]);
        if index.Some? {
          var slice := Get(current, parts[i]);
          if !slice.List? {
            return Stuck(NotAList(slice));
          }
          if !(0 <= index.value < |slice.items|) {
            return Stuck(OutOfRange(index.value, |slice.items|));
          }
          var elem := slice.items[index.value];
          if !elem.Map? {
            return Stuck(NotAMap(elem));
          }
          current := elem.fields;
          i := i + 2;
          continue;
        }
      }
      var mp := Get(current, parts[i]);
      if mp.Map? {
        current := mp.fields;
      }
      i := i + 1;
    }
    return Found(val);
  }

  // -----------------------------------------------------------------------
  // What the walk reaches

  /** The value at a go-cmp path, following map keys and list indices
      from step i on. */
  function AtFrom(v: Value, p: seq<Step>, i: nat): Option<Value>
    requires i <= |p|
    decreases |p| - i
  {
    if i == |p| then Some(v)
    else match p[i]
      case MapIndex(k) => if v.Map? && k in v.fields then AtFrom(v.fields[k], p, i + 1) else None
      case SliceIndex(n) => if v.List? && 0 <= n < |v.items| then AtFrom(v.items[n], p, i + 1) else None
  }

  function At(v: Value, p: seq<Step>): Option<Value> {
    AtFrom(v, p, 0)
  }

  /** The path segment a step renders to. */
  function Segment(s: Step): string {
    if s.MapIndex? then s.key else Itoa(s.index)
  }

  function Segments(p: seq<Step>): (r: seq<string>)
    ensures |r| == |p|
    ensures forall i :: 0 <= i < |p| ==> r[i] == Segment(p[i])
  {
    if p == [] then [] else Segments(p[..|p| - 1]) + [Segment(p[|p| - 1])]
  }

  predicate DotFree(s: string) {
    forall i :: 0 <= i < |s| ==> s[i] != '.'
  }

  /** Paths the walk was written for: map keys without dots that do not
      read as decimal integers, a list index only directly after a map key
      and never last. */
  predicate Walkable(p: seq<Step>) {
    && |p| >= 1
    && p[0].MapIndex?
    && p[|p| - 1].MapIndex?
    && (forall i :: 0 <= i < |p| - 1 ==> p[i].MapIndex? || p[i + 1].MapIndex?)
    && (forall i :: 0 <= i < |p| && p[i].MapIndex? ==> DotFree(p[i].key) && Atoi(p[i].key).None?)
  }

  lemma NoDotSplit(b: string)
    requires DotFree(b)
    ensures Split(b, ".") == [b]
  {
    forall j: nat | j <= |b| ensures !OccursAt(b, ".", j) {
      OccursChar(b, '.', j);
    }
  }

  /** Appending a dot-free segment adds one piece to the split. */
  lemma {:induction false} SplitSnoc(s: string, b: string)
    requires DotFree(b)
    decreases |s|
    ensures Split(s + "." + b, ".") == Split(s, ".") + [b]
  {
    var t := s + "." + b;
    NoDotSplit(b);
    match Index(s, ".")
    case None =>
      OccursChar(t, '.', |s|);
      forall j: nat | j < |s| ensures !OccursAt(t, ".", j) {
        OccursChar(s, '.', j);
        OccursChar(t, '.', j);
      }
      IndexIsFirst(t, ".", |s|);
      assert t[..|s|] == s;
      assert t[|s| + 1..] == b;
    case Some(i) =>
      OccursChar(s, '.', i);
      OccursChar(t, '.', i);
      forall j: nat | j < i ensures !OccursAt(t, ".", j) {
        OccursChar(s, '.', j);
        OccursChar(t, '.', j);
      }
      IndexIsFirst(t, ".", i);
      assert t[..i] == s[..i];
      assert t[i + 1..] == s[i + 1..] + "." + b;
      SplitSnoc(s[i + 1..], b);
  }

  /** The path string of a dot-free path splits into "" and its segments. */
  lemma {:induction false} SplitExact(p: seq<Step>)
    requires forall i :: 0 <= i < |p| && p[i].MapIndex? ==> DotFree(p[i].key)
    ensures Split(Exact(p), ".") == [""] + Segments(p)
  {
    if p == [] {
      assert Split("", ".") == [""];
    } else {
      var last := p[|p| - 1];
      SplitExact(p[..|p| - 1]);
      if last.SliceIndex? {
        ItoaHasNoDot(last.index);
      }
      SplitSnoc(Exact(p[..|p| - 1]), Segment(last));
    }
  }

  /** One step of the walk through a list element. */
  lemma WalkThroughList(root: map<string, Value>, parts: seq<string>, i: nat, idx: int)
    requires i < |parts| - 2 && Atoi(parts[i + 1]) == Some(idx)
    requires Get(root, parts[i]).List? && 0 <= idx < |Get(root, parts[i]).items|
    requires Get(root, parts[i]).items[idx].Map?
    ensures WalkFrom(root, parts, i) == WalkFrom(Get(root, parts[i]).items[idx].fields, parts, i + 2)
  {
    assert StepFrom(root, parts, i) == Next(Get(root, parts[i]).items[idx].fields, i + 2);
  }

  /** One step of the walk into a nested map. */
  lemma WalkIntoMap(root: map<string, Value>, parts: seq<string>, i: nat)
    requires i < |parts| - 1
    requires i == |parts| - 2 || Atoi(parts[i + 1]).None?
    requires Get(root, parts[i]).Map?
    ensures WalkFrom(root, parts, i) == WalkFrom(Get(root, parts[i]).fields, parts, i + 1)
  {
    assert StepFrom(root, parts, i) == Next(Get(root, parts[i]).fields, i + 1);
  }

  /** The walk from the segment of step i reaches the value at step i. */
  lemma {:induction false} WalkFromFinds(root: map<string, Value>, p: seq<Step>, parts: seq<string>, i: nat)
    requires Walkable(p) && i < |p| && p[i].MapIndex?
    requires |parts| == |p| + 1 && forall j :: 0 <= j < |p| ==> parts[j + 1] == Segment(p[j])
    requires AtFrom(Map(root), p, i).Some?
    decreases |p| - i
    ensures WalkFrom(root, parts, i + 1) == Found(AtFrom(Map(root), p, i).value)
  {
    var k := p[i].key;
    assert parts[i + 1] == k;
    if i < |p| - 1 {
      var next := p[i + 1];
      assert parts[i + 2] == Segment(next);
      if next.SliceIndex? {
        AtoiItoa(next.index);
        assert p[i + 2].MapIndex?;
        var elem := root[k].items[next.index];
        assert AtFrom(Map(root), p, i) == AtFrom(root[k], p, i + 1) == AtFrom(elem, p, i + 2);
        WalkThroughList(root, parts, i + 1, next.index);
        WalkFromFinds(elem.fields, p, parts, i + 2);
      } else {
        WalkIntoMap(root, parts, i + 1);
        WalkFromFinds(root[k].fields, p, parts, i + 1);
      }
    }
  }

  /** For a walkable path the saved value is the value at the placeholder's
      path in the response, provided the response has no map under the
      empty key (the walk's first segment is ""). */
  lemma WalkFindsValue(body: map<string, Value>, p: seq<Step>)
    requires Walkable(p)
    requires At(Map(body), p).Some?
    requires !Get(body, "").Map?
    ensures Walk(body, Exact(p)) == Found(At(Map(body), p).value)
  {
    SplitExact(p);
    var parts := [""] + Segments(p);
    assert parts[1] == p[0].key;
    WalkFromFinds(body, p, parts, 0);
  }

  /** A placeholder directly inside a list is never reached: for the path
      ".k.n" the walk reads key n of the top-level map, not the list
      element, so it saves nil although the path exists. */
  lemma LeafListElementReadsNil(k: string, items: seq<Value>, n: nat)
    requires k != "" && DotFree(k) && Atoi(k).None? && n < |items|
    ensures var body := map[k := List(items)];
      var p := [MapIndex(k), SliceIndex(n)];
      At(Map(body), p) == Some(items[n]) && Walk(body, Exact(p)) == Found(Nil)
  {
    var p := [MapIndex(k), SliceIndex(n)];
    var body := map[k := List(items)];
    SplitExact(p);
    var parts := [""] + Segments(p);
    assert parts == ["", k, Itoa(n)];
    AtoiItoa(n);
    assert Get(body, Itoa(n)) == Nil;
    assert StepFrom(body, parts, 0) == Next(body, 1);
    assert StepFrom(body, parts, 1) == Next(body, 2);
    assert StepFrom(body, parts, 2) == Done(Found(Nil));
    assert WalkFrom(body, parts, 2) == Found(Nil);
    assert WalkFrom(body, parts, 1) == Found(Nil);
    assert WalkFrom(body, parts, 0) == Found(Nil);
    assert AtFrom(items[n], p, 2) == Some(items[n]);
    assert AtFrom(List(items), p, 1) == Some(items[n]);
  }

  /** A map key that reads as a decimal integer is taken for a list index:
      the walk panics although the path exists. */
  lemma NumericKeyPanics(a: string, k: string, b: string, x: Value)
    requires a != "" && DotFree(a) && Atoi(a).None? && DotFree(k) && Atoi(k).Some? && DotFree(b)
    ensures var body := map[a := Map(map[k := Map(map[b := x])])];
      var p := [MapIndex(a), MapIndex(k), MapIndex(b)];
      At(Map(body), p) == Some(x) && Walk(body, Exact(p)).Stuck?
  {
    var p := [MapIndex(a), MapIndex(k), MapIndex(b)];
    var body := map[a := Map(map[k := Map(map[b := x])])];
    SplitExact(p);
    var parts := [""] + Segments(p);
    assert parts == ["", a, k, b];
    assert StepFrom(body, parts, 0) == Next(body, 1);
    assert Get(body, parts[1]) == Map(map[k := Map(map[b := x])]);
    assert StepFrom(body, parts, 1) == Done(Stuck(NotAList(Map(map[k := Map(map[b := x])]))));
    assert WalkFrom(body, parts, 1).Stuck?;
    assert WalkFrom(body, parts, 0).Stuck?;
    NestedAt(a, k, b, x);
  }

  /** Three nested map keys reach the innermost value. */
  lemma NestedAt(a: string, k: string, b: string, x: Value)
    ensures At(Map(map[a := Map(map[k := Map(map[b := x])])]), [MapIndex(a), MapIndex(k), MapIndex(b)]) == Some(x)
  {
    var p := [MapIndex(a), MapIndex(k), MapIndex(b)];
    assert AtFrom(x, p, 3) == Some(x);
    assert AtFrom(Map(map[b := x]), p, 2) == Some(x);
    assert AtFrom(Map(map[k := Map(map[b := x])]), p, 1) == Some(x);
  }
}
