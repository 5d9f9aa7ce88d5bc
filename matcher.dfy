/** The comparison verdict of go-cmp (`cmp.Equal` / an empty `cmp.Diff`)
    under the path-filtered options both matchers build: a rule either
    ignores the value at its path or replaces the comparison there by the
    not-null comparer. Only the verdict is modelled, not the diff text. */
module Matcher {
  import opened Strs
  import opened Values

  /** A step of a go-cmp path that a path filter inspects. */
  datatype Step = MapIndex(key: string) | SliceIndex(index: int)

  /** The string a path filter builds: "." + key for a map step and
      "." + index for a slice step. */
  function Exact(p: seq<Step>): string {
    if p == [] then ""
    else
      var last := p[|p| - 1];
      Exact(p[..|p| - 1]) + "." + (if last.MapIndex? then last.key else Itoa(last.index))
  }

  /** The wildcard rendering of testmanager/parser/file.go: every slice
      index becomes "*". */
  function Wide(p: seq<Step>): string {
    if p == [] then ""
    else
      var last := p[|p| - 1];
      Wide(p[..|p| - 1]) + "." + (if last.MapIndex? then last.key else "*")
  }

  datatype Action = CheckNotNull | IgnoreValue

  /** cmp.FilterPath(filter, option): the filter accepts a path whose exact
      rendering equals `target`, or, when `wildcard` is set, whose wildcard
      rendering does. */
  datatype Rule = Rule(target: string, wildcard: bool, action: Action)

  predicate Applies(r: Rule, p: seq<Step>) {
    Exact(p) == r.target || (r.wildcard && Wide(p) == r.target)
  }

  predicate Ignored(rules: seq<Rule>, p: seq<Step>) {
    exists i :: 0 <= i < |rules| && rules[i].action == IgnoreValue && Applies(rules[i], p)
  }

  predicate Checked(rules: seq<Rule>, p: seq<Step>) {
    exists i :: 0 <= i < |rules| && rules[i].action == CheckNotNull && Applies(rules[i], p)
  }

  /** cmpNotNull (lua/runner/check.go and testmanager/parser/file.go):
      equal unless either side is nil. */
  predicate CmpNotNull(x: Value, y: Value) {
    !(x == Nil || y == Nil)
  }

  /** The verdict of comparing x with y under `rules`. */
  predicate Equal(rules: seq<Rule>, x: Value, y: Value)
    ensures rules == [] ==> (Equal(rules, x, y) <==> x == y)
    ensures Equal(rules, x, y) <==> EqualAt(rules, [], y, x)
  {
    NoRulesIsEquality([], x, y);
    EqualSymmetric(rules, [], x, y);
    EqualAt(rules, [], x, y)
  }

  /** Comparison of two present values at path p: an ignore rule wins, then
      the not-null comparer, then the structural comparison. */
  predicate EqualAt(rules: seq<Rule>, p: seq<Step>, x: Value, y: Value)
    decreases x, 2
  {
    Ignored(rules, p)
    || (if Checked(rules, p) then CmpNotNull(x, y) else Structural(rules, p, x, y))
  }

  /** Comparison by kind. Values of different dynamic types differ; maps
      are compared key by key over both key sets, where a key missing on
      one side is equal only if ignored. Lists: go-cmp first drops every
      element that an option ignores standing alone, at a slice step whose
      Key() is -1 because the other side is missing; with path-only
      filters that drops all elements or none. Without them, an edit
      script matches the rest, and every unmatched element is a
      difference, so equal lists have equal lengths and equal elements
      index by index. */
  predicate Structural(rules: seq<Rule>, p: seq<Step>, x: Value, y: Value)
    decreases x, 1
  {
    match (x, y)
    case (Nil, Nil) => true
    case (Bool(a), Bool(b)) => a == b
    case (Int(a), Int(b)) => a == b
    case (Float(a), Float(b)) => a == b
    case (Str(a), Str(b)) => a == b
    case (List(a), List(b)) =>
      Ignored(rules, p + [SliceIndex(-1)])
      || (|a| == |b| && forall i :: 0 <= i < |a| ==> EqualAt(rules, p + [SliceIndex(i)], a[i], b[i]))
    case (Map(a), Map(b)) =>
      forall k | k in a.Keys + b.Keys :: EntryEqual(rules, p, k, x, y)
    // map[any]any never reaches the matchers; compared as plain values
    case (AnyMap(a), AnyMap(b)) => a == b
    case _ => false
  }

  /** The comparison at key k of two maps. */
  predicate EntryEqual(rules: seq<Rule>, p: seq<Step>, k: string, x: Value, y: Value)
    requires x.Map? && y.Map?
    decreases x, 0
  {
    Ignored(rules, p + [MapIndex(k)])
    || (k in x.fields && k in y.fields && EqualAt(rules, p + [MapIndex(k)], x.fields[k], y.fields[k]))
  }

  // -----------------------------------------------------------------------
  // Properties of the verdict

  /** Without rules the matcher is plain equality. */
  lemma {:induction false} NoRulesIsEquality(p: seq<Step>, x: Value, y: Value)
    decreases x
    ensures EqualAt([], p, x, y) <==> x == y
  {
    assert EqualAt([], p, x, y) <==> Structural([], p, x, y);
    match (x, y)
    case (List(a), List(b)) =>
      if |a| == |b| {
        forall i | 0 <= i < |a| ensures EqualAt([], p + [SliceIndex(i)], a[i], b[i]) <==> a[i] == b[i] {
          NoRulesIsEquality(p + [SliceIndex(i)], a[i], b[i]);
        }
        if Structural([], p, x, y) {
          assert a == b;
        }
      }
    case (Map(a), Map(b)) =>
      forall k | k in a.Keys + b.Keys ensures EntryEqual([], p, k, x, y) <==> (k in a && k in b && a[k] == b[k]) {
        if k in a && k in b {
          NoRulesIsEquality(p + [MapIndex(k)], a[k], b[k]);
        }
      }
      if Structural([], p, x, y) {
        assert a.Keys == b.Keys;
        assert a == b;
      }
    case _ =>
  }

  /** The verdict does not depend on which side is called expected:
      check.go passes expected first, parser/file.go the actual value. */
  lemma {:induction false} EqualSymmetric(rules: seq<Rule>, p: seq<Step>, x: Value, y: Value)
    decreases x, 1
    ensures EqualAt(rules, p, x, y) <==> EqualAt(rules, p, y, x)
  {
    if !Ignored(rules, p) && !Checked(rules, p) {
      StructuralSymmetric(rules, p, x, y);
    }
  }

  lemma {:induction false} StructuralSymmetric(rules: seq<Rule>, p: seq<Step>, x: Value, y: Value)
    decreases x, 0
    ensures Structural(rules, p, x, y) <==> Structural(rules, p, y, x)
  {
    match (x, y)
    case (List(a), List(b)) =>
      if |a| == |b| {
        forall i | 0 <= i < |a|
          ensures EqualAt(rules, p + [SliceIndex(i)], a[i], b[i]) <==> EqualAt(rules, p + [SliceIndex(i)], b[i], a[i])
        {
          EqualSymmetric(rules, p + [SliceIndex(i)], a[i], b[i]);
        }
      }
    case (Map(a), Map(b)) =>
      forall k | k in a.Keys + b.Keys
        ensures EntryEqual(rules, p, k, x, y) <==> EntryEqual(rules, p, k, y, x)
      {
        if k in a && k in b {
          EqualSymmetric(rules, p + [MapIndex(k)], a[k], b[k]);
        }
      }
      assert a.Keys + b.Keys == b.Keys + a.Keys;
    case _ =>
  }

  /** The same rules, in whatever order, ignore and check the same
      paths. */
  lemma SameFilters(r1: seq<Rule>, r2: seq<Rule>, q: seq<Step>)
    requires forall r :: r in r1 <==> r in r2
    ensures Ignored(r1, q) <==> Ignored(r2, q)
    ensures Checked(r1, q) <==> Checked(r2, q)
  {
    SameFiltersOneWay(r1, r2, q);
    SameFiltersOneWay(r2, r1, q);
  }

  lemma SameFiltersOneWay(r1: seq<Rule>, r2: seq<Rule>, q: seq<Step>)
    requires forall r :: r in r1 ==> r in r2
    ensures Ignored(r1, q) ==> Ignored(r2, q)
    ensures Checked(r1, q) ==> Checked(r2, q)
  {
    if Ignored(r1, q) {
      var i :| 0 <= i < |r1| && r1[i].action == IgnoreValue && Applies(r1[i], q);
      assert r1[i] in r2;
      var j :| 0 <= j < |r2| && r2[j] == r1[i];
    }
    if Checked(r1, q) {
      var i :| 0 <= i < |r1| && r1[i].action == CheckNotNull && Applies(r1[i], q);
      assert r1[i] in r2;
      var j :| 0 <= j < |r2| && r2[j] == r1[i];
    }
  }

  /** Only which rules are present matters, not their order or
      repetition: the options built from a Go map in any iteration order
      give the same verdict. */
  lemma {:induction false} EqualSameRules(r1: seq<Rule>, r2: seq<Rule>, p: seq<Step>, x: Value, y: Value)
    requires forall r :: r in r1 <==> r in r2
    decreases x, 1
    ensures EqualAt(r1, p, x, y) <==> EqualAt(r2, p, x, y)
  {
    SameFilters(r1, r2, p);
    if !Ignored(r1, p) && !Checked(r1, p) {
      StructuralSameRules(r1, r2, p, x, y);
    }
  }

  lemma {:induction false} StructuralSameRules(r1: seq<Rule>, r2: seq<Rule>, p: seq<Step>, x: Value, y: Value)
    requires forall r :: r in r1 <==> r in r2
    decreases x, 0
    ensures Structural(r1, p, x, y) <==> Structural(r2, p, x, y)
  {
    match (x, y)
    case (List(a), List(b)) =>
      SameFilters(r1, r2, p + [SliceIndex(-1)]);
      if |a| == |b| {
        forall i | 0 <= i < |a|
          ensures EqualAt(r1, p + [SliceIndex(i)], a[i], b[i]) <==> EqualAt(r2, p + [SliceIndex(i)], a[i], b[i])
        {
          EqualSameRules(r1, r2, p + [SliceIndex(i)], a[i], b[i]);
        }
      }
    case (Map(a), Map(b)) =>
      forall k | k in a.Keys + b.Keys
        ensures EntryEqual(r1, p, k, x, y) <==> EntryEqual(r2, p, k, x, y)
      {
        SameFilters(r1, r2, p + [MapIndex(k)]);
        if k in a && k in b {
          EqualSameRules(r1, r2, p + [MapIndex(k)], a[k], b[k]);
        }
      }
    case _ =>
  }

  /** A wildcard ignore rule on a list's elements, such as `IGNORE items.*`,
      ignores them standing alone, so lists of any lengths compare equal. */
  lemma WildcardIgnoreAnyLength(a: seq<Value>, b: seq<Value>)
    ensures Equal([Rule(".items.*", true, IgnoreValue)], Map(map["items" := List(a)]), Map(map["items" := List(b)]))
  {
    var rules := [Rule(".items.*", true, IgnoreValue)];
    var q := [MapIndex("items"), SliceIndex(-1)];
    assert q[..1] == [MapIndex("items")];
    assert Wide(q) == ".items.*";
    assert Ignored(rules, [MapIndex("items")] + [SliceIndex(-1)]) by {
      assert [MapIndex("items")] + [SliceIndex(-1)] == q;
      assert Applies(rules[0], q);
    }
    var x, y := Map(map["items" := List(a)]), Map(map["items" := List(b)]);
    assert [] + [MapIndex("items")] == [MapIndex("items")];
    assert EntryEqual(rules, [], "items", x, y);
  }

  /** When no rule targets the element of a list standing alone (exact
      rules at real indices, as convertToCheck records), equal lists have
      equal lengths. */
  lemma ExactRulesKeepLength(rules: seq<Rule>, p: seq<Step>, a: seq<Value>, b: seq<Value>)
    requires forall r :: r in rules ==> !r.wildcard && r.target != Exact(p + [SliceIndex(-1)])
    ensures Structural(rules, p, List(a), List(b)) ==> |a| == |b|
  {
    forall i | 0 <= i < |rules| ensures !Applies(rules[i], p + [SliceIndex(-1)]) {
      assert rules[i] in rules;
    }
  }

  /** Where a not-null rule applies and no ignore rule does, two present
      values are equal exactly when neither is nil. */
  lemma NotNullRuleDecides(rules: seq<Rule>, p: seq<Step>, x: Value, y: Value)
    requires Checked(rules, p) && !Ignored(rules, p)
    ensures EqualAt(rules, p, x, y) <==> (x != Nil && y != Nil)
  {
  }

  /** Where an ignore rule applies, any value and even a missing map entry
      is accepted. */
  lemma IgnoreRuleAcceptsAll(rules: seq<Rule>, p: seq<Step>, k: string, a: map<string, Value>, b: map<string, Value>)
    requires Ignored(rules, p + [MapIndex(k)])
    ensures EntryEqual(rules, p, k, Map(a), Map(b))
    ensures forall x, y :: EqualAt(rules, p + [MapIndex(k)], x, y)
  {
  }

  /** A map entry present on one side only is a mismatch unless ignored:
      the not-null comparer is never consulted for it. */
  lemma MissingEntryNeedsIgnore(rules: seq<Rule>, p: seq<Step>, k: string, a: map<string, Value>, b: map<string, Value>)
    requires (k in a) != (k in b)
    ensures EntryEqual(rules, p, k, Map(a), Map(b)) <==> Ignored(rules, p + [MapIndex(k)])
  {
  }
}
