/**
  The order Python uses on `str` values (code-point lexicographic comparison),
  and the two sorting operations the core relies on: `sorted(...)` on a list of
  labels, and `np.unique`, which sorts and removes duplicates.
*/
module StringOrder {

  type Label = string

  /** `a < b` on Python strings. */
  predicate Less(a: Label, b: Label)
    decreases |a|
  {
    if a == [] then b != []
    else if b == [] then false
    else if a[0] != b[0] then a[0] < b[0]
    else Less(a[1..], b[1..])
  }

  /** `a <= b` on Python strings. */
  predicate LessEq(a: Label, b: Label)
  {
    a == b || Less(a, b)
  }

  lemma {:induction false} LessIrreflexive(a: Label)
    ensures !Less(a, a)
    decreases |a|
  {
    if a != [] {
      LessIrreflexive(a[1..]);
    }
  }

  lemma {:induction false} LessTransitive(a: Label, b: Label, c: Label)
    requires Less(a, b) && Less(b, c)
    ensures Less(a, c)
    decreases |a|
  {
    if a != [] {
      assert b != [] && c != [];
      if a[0] == b[0] && b[0] == c[0] {
        LessTransitive(a[1..], b[1..], c[1..]);
      }
    }
  }

  lemma {:induction false} LessTotal(a: Label, b: Label)
    ensures a == b || Less(a, b) || Less(b, a)
    decreases |a|
  {
    if a != [] && b != [] && a[0] == b[0] {
      LessTotal(a[1..], b[1..]);
      if a[1..] == b[1..] {
        assert a == [a[0]] + a[1..] && b == [b[0]] + b[1..];
      }
    }
  }

  lemma LessAsymmetric(a: Label, b: Label)
    requires Less(a, b)
    ensures !Less(b, a)
  {
    if Less(b, a) {
      LessTransitive(a, b, a);
      LessIrreflexive(a);
    }
  }

  lemma LessEqTransitive(a: Label, b: Label, c: Label)
    requires LessEq(a, b) && LessEq(b, c)
    ensures LessEq(a, c)
  {
    if a != b && b != c {
      LessTransitive(a, b, c);
    }
  }

  lemma LessEqAntisymmetric(a: Label, b: Label)
    requires LessEq(a, b) && LessEq(b, a)
    ensures a == b
  {
    if a != b {
      LessAsymmetric(a, b);
    }
  }

  /** Ascending with no duplicates: the shape of `LabelEncoder.classes_`. */
  predicate StrictlySorted(s: seq<Label>)
  {
    forall i, j :: 0 <= i < j < |s| ==> Less(s[i], s[j])
  }

  /** Ascending, duplicates allowed: the shape of a `sorted(...)` result. */
  predicate Sorted(s: seq<Label>)
  {
    forall i, j :: 0 <= i < j < |s| ==> LessEq(s[i], s[j])
  }

  function Elements(s: seq<Label>): set<Label>
  {
    set x | x in s
  }

  /** Sorted insertion of one label; the step of `Sort`. */
  function Insert(s: seq<Label>, x: Label): (r: seq<Label>)
    requires Sorted(s)
    ensures Sorted(r)
    ensures multiset(r) == multiset(s) + multiset{x}
  {
    if s == [] || LessEq(x, s[0]) then
      PrependKeepsSorted(x, s);
      [x] + s
    else
      LessTotal(x, s[0]);
      var t := Insert(s[1..], x);
      assert s == [s[0]] + s[1..];
      PrependKeepsSorted(s[0], t);
      [s[0]] + t
  }

  lemma PrependKeepsSorted(x: Label, s: seq<Label>)
    requires Sorted(s)
    requires s == [] || LessEq(x, s[0]) || forall y :: y in s ==> LessEq(x, y)
    ensures Sorted([x] + s)
  {
    if s != [] && LessEq(x, s[0]) {
      forall j | 0 <= j < |s|
        ensures LessEq(x, s[j])
      {
        LessEqTransitive(x, s[0], s[j]);
      }
    }
  }

  /** Python's `sorted(xs)` on a list of strings. */
  function Sort(xs: seq<Label>): (r: seq<Label>)
    ensures Sorted(r)
    ensures multiset(r) == multiset(xs)
  {
    if xs == [] then []
    else
      assert xs == [xs[0]] + xs[1..];
      Insert(Sort(xs[1..]), xs[0])
  }

  /** Insertion of one label into a duplicate-free ascending list; the step of `Unique`. */
  function InsertUnique(s: seq<Label>, x: Label): (r: seq<Label>)
    requires StrictlySorted(s)
    ensures StrictlySorted(r)
    ensures Elements(r) == Elements(s) + {x}
  {
    if s == [] || Less(x, s[0]) then
      PrependKeepsStrictlySorted(x, s);
      [x] + s
    else if x == s[0] then
      s
    else
      LessTotal(x, s[0]);
      var t := InsertUnique(s[1..], x);
      assert s == [s[0]] + s[1..];
      assert Elements(s) == {s[0]} + Elements(s[1..]);
      assert Elements([s[0]] + t) == {s[0]} + Elements(t);
      PrependKeepsStrictlySorted(s[0], t);
      [s[0]] + t
  }

  lemma PrependKeepsStrictlySorted(x: Label, s: seq<Label>)
    requires StrictlySorted(s)
    requires s == [] || Less(x, s[0]) || forall y :: y in s ==> Less(x, y)
    ensures StrictlySorted([x] + s)
  {
    if s != [] && Less(x, s[0]) {
      forall j | 0 < j < |s|
        ensures Less(x, s[j])
      {
        LessTransitive(x, s[0], s[j]);
      }
    }
  }

  /** `np.unique(xs)`: the distinct labels of `xs`, ascending. */
  function Unique(xs: seq<Label>): (r: seq<Label>)
    ensures StrictlySorted(r)
    ensures Elements(r) == Elements(xs)
  {
    if xs == [] then []
    else
      assert xs == [xs[0]] + xs[1..];
      InsertUnique(Unique(xs[1..]), xs[0])
  }

  /** A duplicate-free ascending list is determined by its elements. */
  lemma {:induction false} StrictlySortedDetermined(a: seq<Label>, b: seq<Label>)
    requires StrictlySorted(a) && StrictlySorted(b)
    requires Elements(a) == Elements(b)
    ensures a == b
    decreases |a|
  {
    StrictlySortedCardinality(a);
    StrictlySortedCardinality(b);
    if a != [] {
      assert a[0] in Elements(b);
      assert b[0] in Elements(a);
      if a[0] != b[0] {
        var k :| 0 <= k < |a| && a[k] == b[0];
        var m :| 0 <= m < |b| && b[m] == a[0];
        assert Less(a[0], a[k]) && Less(b[0], b[m]);
        LessAsymmetric(a[0], a[k]);
      }
      assert a[0] == b[0];
      forall y | y in Elements(a[1..]) ensures y in Elements(b[1..]) {
        LaterElementStaysLater(a, b, y);
      }
      forall y | y in Elements(b[1..]) ensures y in Elements(a[1..]) {
        LaterElementStaysLater(b, a, y);
      }
      assert Elements(a[1..]) == Elements(b[1..]);
      StrictlySortedDetermined(a[1..], b[1..]);
      assert a == [a[0]] + a[1..] && b == [b[0]] + b[1..];
    }
  }

  lemma LaterElementStaysLater(a: seq<Label>, b: seq<Label>, y: Label)
    requires StrictlySorted(a) && StrictlySorted(b)
    requires Elements(a) == Elements(b) && a != [] && b != [] && a[0] == b[0]
    requires y in Elements(a[1..])
    ensures y in Elements(b[1..])
  {
    var k :| 1 <= k < |a| && a[k] == y;
    assert y in Elements(b);
    var m :| 0 <= m < |b| && b[m] == y;
    if m == 0 {
      assert Less(a[0], a[k]);
      LessIrreflexive(a[0]);
    }
    assert b[1..][m - 1] == y;
  }

  /** The head of an ascending list is at most any of its elements. */
  lemma SortedHeadIsLeast(a: seq<Label>, x: Label)
    requires Sorted(a) && x in multiset(a)
    ensures a != [] && LessEq(a[0], x)
  {
    var k :| 0 <= k < |a| && a[k] == x;
    if k > 0 {
      assert LessEq(a[0], a[k]);
    }
  }

  lemma TailMultiset(a: seq<Label>)
    requires a != []
    ensures multiset(a[1..]) == multiset(a) - multiset{a[0]}
  {
    assert a == [a[0]] + a[1..];
  }

  /** An ascending list is determined by its multiset of elements. */
  lemma {:induction false} SortedDetermined(a: seq<Label>, b: seq<Label>)
    requires Sorted(a) && Sorted(b)
    requires multiset(a) == multiset(b)
    ensures a == b
    decreases |a|
  {
    if a != [] {
      assert a[0] in multiset(a);
      SortedHeadIsLeast(b, a[0]);
      SortedHeadIsLeast(a, b[0]);
      LessEqAntisymmetric(a[0], b[0]);
      TailMultiset(a);
      TailMultiset(b);
      SortedDetermined(a[1..], b[1..]);
      assert a == [a[0]] + a[1..] && b == [b[0]] + b[1..];
    }
  }

  /** `sorted` of an already ascending list returns it unchanged. */
  lemma SortOfSorted(xs: seq<Label>)
    requires Sorted(xs)
    ensures Sort(xs) == xs
  {
    SortedDetermined(Sort(xs), xs);
  }

  /** `Unique(xs)` is the only duplicate-free ascending list with the labels of `xs`. */
  lemma UniqueIsCanonical(xs: seq<Label>, s: seq<Label>)
    requires StrictlySorted(s) && Elements(s) == Elements(xs)
    ensures Unique(xs) == s
  {
    StrictlySortedDetermined(Unique(xs), s);
  }

  /** A duplicate-free list has as many distinct elements as positions. */
  lemma {:induction false} StrictlySortedCardinality(s: seq<Label>)
    requires StrictlySorted(s)
    ensures |Elements(s)| == |s|
    decreases |s|
  {
    if s != [] {
      StrictlySortedCardinality(s[1..]);
      assert s == [s[0]] + s[1..];
      assert Elements(s) == {s[0]} + Elements(s[1..]);
      if s[0] in Elements(s[1..]) {
        var k :| 1 <= k < |s| && s[k] == s[0];
        LessIrreflexive(s[0]);
        assert false;
      }
    }
  }

  lemma {:induction false} ElementsCardinality(s: seq<Label>)
    ensures |Elements(s)| <= |s|
    decreases |s|
  {
    if s != [] {
      ElementsCardinality(s[1..]);
      assert s == [s[0]] + s[1..];
      assert Elements(s) == {s[0]} + Elements(s[1..]);
    }
  }

  /** A strictly ascending list is ascending. */
  lemma StrictlySortedIsSorted(s: seq<Label>)
    requires StrictlySorted(s)
    ensures Sorted(s)
  {
  }

  /** A subset of labels is no larger than the set holding it. */
  lemma SubsetCardinality(a: set<Label>, b: set<Label>)
    requires a <= b
    ensures |a| <= |b|
  {
    assert b == a + (b - a);
  }
}
