/** Lists of names: lexicographic sorting, distinctness and the counting arguments
that the configuration comparisons rest on. */
module Names {
  predicate Distinct<T(==)>(names: seq<T>) {
    forall i, j :: 0 <= i < j < |names| ==> names[i] != names[j]
  }

  ghost function SetOf<T>(names: seq<T>): set<T> {
    set i | 0 <= i < |names| :: names[i]
  }

  // ---------------------------------------------------------------- sorting

  predicate LessEq(a: string, b: string) {
    a == [] || (b != [] && (a[0] < b[0] || (a[0] == b[0] && LessEq(a[1..], b[1..]))))
  }

  lemma {:induction false} LessEqTotal(a: string, b: string)
    ensures LessEq(a, b) || LessEq(b, a)
  {
    if a != [] && b != [] { LessEqTotal(a[1..], b[1..]); }
  }

  lemma {:induction false} LessEqAntisymmetric(a: string, b: string)
    requires LessEq(a, b) && LessEq(b, a)
    ensures a == b
  {
    if a != [] {
      LessEqAntisymmetric(a[1..], b[1..]);
      assert a == [a[0]] + a[1..] && b == [b[0]] + b[1..];
    }
  }

  lemma {:induction false} LessEqTransitive(a: string, b: string, c: string)
    requires LessEq(a, b) && LessEq(b, c)
    ensures LessEq(a, c)
  {
    if a != [] && a[0] == b[0] && b[0] == c[0] { LessEqTransitive(a[1..], b[1..], c[1..]); }
  }

  ghost predicate Sorted(names: seq<string>) {
    forall i, j :: 0 <= i < j < |names| ==> LessEq(names[i], names[j])
  }

  function Insert(x: string, names: seq<string>): seq<string> {
    if names == [] then [x]
    else if LessEq(x, names[0]) then [x] + names else [names[0]] + Insert(x, names[1..])
  }

  /** slices.Sort on strings. */
  function Sort(names: seq<string>): seq<string> {
    if names == [] then [] else Insert(names[0], Sort(names[1..]))
  }

  lemma {:induction false} InsertSorted(x: string, names: seq<string>)
    requires Sorted(names)
    ensures Sorted(Insert(x, names))
    ensures multiset(Insert(x, names)) == multiset(names) + multiset{x}
  {
    if names != [] {
      var head, tail := names[0], names[1..];
      assert names == [head] + tail;
      if LessEq(x, head) {
        forall i | 0 <= i < |names| ensures LessEq(x, names[i]) {
          if i > 0 { LessEqTransitive(x, head, names[i]); }
        }
      } else {
        LessEqTotal(x, head);
        InsertSorted(x, tail);
        var rest := Insert(x, tail);
        forall i | 0 <= i < |rest| ensures LessEq(head, rest[i]) {
          assert rest[i] in multiset(rest);
          assert rest[i] == x || rest[i] in tail;
        }
      }
    }
  }

  lemma {:induction false} SortSorted(names: seq<string>)
    ensures Sorted(Sort(names))
    ensures multiset(Sort(names)) == multiset(names)
  {
    if names != [] {
      assert names == [names[0]] + names[1..];
      SortSorted(names[1..]);
      InsertSorted(names[0], Sort(names[1..]));
    }
  }

  lemma SortedFirst(a: seq<string>, b: seq<string>)
    requires Sorted(a) && Sorted(b) && multiset(a) == multiset(b)
    requires a != [] && b != []
    ensures LessEq(a[0], b[0])
  {
    assert b[0] in multiset(a);
    var j :| 0 <= j < |a| && a[j] == b[0];
    LessEqTotal(a[0], a[0]);
  }

  lemma DropFirst<T>(a: seq<T>)
    requires a != []
    ensures a == [a[0]] + a[1..] && multiset(a[1..]) == multiset(a) - multiset{a[0]}
  {}

  lemma {:induction false} SortedUnique(a: seq<string>, b: seq<string>)
    requires Sorted(a) && Sorted(b) && multiset(a) == multiset(b)
    ensures a == b
  {
    assert |multiset(a)| == |a| && |multiset(b)| == |b|;
    if a != [] {
      SortedFirst(a, b);
      SortedFirst(b, a);
      LessEqAntisymmetric(a[0], b[0]);
      DropFirst(a);
      DropFirst(b);
      SortedUnique(a[1..], b[1..]);
    }
  }

  lemma SortEqualExactlyWhenSameNames(a: seq<string>, b: seq<string>)
    ensures Sort(a) == Sort(b) <==> multiset(a) == multiset(b)
  {
    SortSorted(a);
    SortSorted(b);
    if multiset(a) == multiset(b) {
      SortedUnique(Sort(a), Sort(b));
    }
  }

  // ---------------------------------------------------------------- counting

  lemma {:induction false} SetSize<T>(names: seq<T>)
    ensures |SetOf(names)| <= |names|
    ensures |SetOf(names)| == |names| <==> Distinct(names)
  {
    if names != [] {
      var front, last := names[..|names| - 1], names[|names| - 1];
      SetSize(front);
      assert SetOf(names) == SetOf(front) + {last};
      if last in front {
        assert SetOf(names) == SetOf(front);
      } else {
        forall i, j | 0 <= i < j < |names| && Distinct(front) ensures names[i] != names[j] {
          assert names[i] == front[i];
          if j < |front| { assert names[j] == front[j]; }
        }
      }
      assert Distinct(names) ==> Distinct(front);
    }
  }

  /** Pigeonhole: a list without repetition cannot fit into fewer names than it has. */
  lemma InclusionBothWays<T>(small: seq<T>, big: seq<T>)
    requires Distinct(small) && |big| <= |small|
    requires SetOf(small) <= SetOf(big)
    ensures SetOf(small) == SetOf(big) && Distinct(big) && |small| == |big|
  {
    SetSize(small);
    SetSize(big);
    SubsetOfSameSize(SetOf(small), SetOf(big));
  }

  lemma {:induction false} SubsetOfSameSize<T>(a: set<T>, b: set<T>)
    requires a <= b
    ensures |a| <= |b|
    ensures |a| == |b| ==> a == b
  {
    if a != {} {
      var x :| x in a;
      SubsetOfSameSize(a - {x}, b - {x});
    }
  }

  lemma {:induction false} DistinctCount<T>(names: seq<T>, x: T)
    ensures multiset(names)[x] == 0 <==> x !in names
    ensures Distinct(names) ==> multiset(names)[x] <= 1
  {
    if names != [] {
      assert names == [names[0]] + names[1..];
      DistinctCount(names[1..], x);
      if Distinct(names) {
        assert Distinct(names[1..]);
        assert names[0] !in names[1..];
      }
    }
  }

  lemma DistinctMultisets<T>(a: seq<T>, b: seq<T>)
    requires Distinct(a) && Distinct(b) && SetOf(a) == SetOf(b)
    ensures multiset(a) == multiset(b)
  {
    forall x ensures multiset(a)[x] == multiset(b)[x] {
      DistinctCount(a, x);
      DistinctCount(b, x);
      assert x in a <==> x in SetOf(a);
      assert x in b <==> x in SetOf(b);
    }
  }

  lemma SameMultisetSameSet<T>(a: seq<T>, b: seq<T>)
    requires multiset(a) == multiset(b)
    ensures SetOf(a) == SetOf(b) && |a| == |b|
  {
    assert |multiset(a)| == |a| && |multiset(b)| == |b|;
    forall x ensures x in SetOf(a) <==> x in SetOf(b) {
      assert x in SetOf(a) <==> x in multiset(a);
      assert x in SetOf(b) <==> x in multiset(b);
    }
  }

  /** A name longer than every name in the list, hence not among them. */
  function FreshName(names: seq<string>): (r: string)
    ensures forall i :: 0 <= i < |names| ==> |names[i]| < |r|
  {
    if names == [] then "x"
    else
      var front := names[..|names| - 1];
      FreshName(front) + names[|names| - 1]
  }
}
