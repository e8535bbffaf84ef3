/**
 * Python's `sorted`/`list.sort` with a key: a stable sort under a total
 * preorder `le` ("key of a <= key of b"). Modelled by insertion sort, which is
 * stable; the lemmas state what callers use: the result is ordered, is a
 * permutation of the input, starts with the first minimal element and ends
 * with the last maximal element of the input.
 */
module Sorting {
  import opened Seqs

  ghost predicate TotalPreorder<T(!new)>(le: (T, T) -> bool) {
    && (forall a, b :: le(a, b) || le(b, a))
    && Transitive(le)
  }

  ghost predicate Transitive<T(!new)>(le: (T, T) -> bool) {
    forall a, b, c :: le(a, b) && le(b, c) ==> le(a, c)
  }

  ghost predicate Sorted<T>(s: seq<T>, le: (T, T) -> bool) {
    forall i, j :: 0 <= i < j < |s| ==> le(s[i], s[j])
  }

  /** Insert `x` after every element that is not above it. */
  function Insert<T>(x: T, s: seq<T>, le: (T, T) -> bool): (r: seq<T>)
    ensures |r| == |s| + 1
    decreases |s|
  {
    if s == [] then [x]
    else if le(s[0], x) then [s[0]] + Insert(x, s[1..], le)
    else [x] + s
  }

  /** The insertion holds the elements of `s` and `x`. */
  lemma {:induction false} InsertPermutation<T>(x: T, s: seq<T>, le: (T, T) -> bool)
    ensures multiset(Insert(x, s, le)) == multiset(s) + multiset{x}
    decreases |s|
  {
    if s != [] && le(s[0], x) {
      InsertPermutation(x, s[1..], le);
      assert s == [s[0]] + s[1..];
    }
  }

  /** The sorted list is a permutation of the input (that it is ordered is
      `SortCorrect`). */
  function Sort<T>(s: seq<T>, le: (T, T) -> bool): (r: seq<T>)
    ensures |r| == |s|
    ensures multiset(r) == multiset(s)
    decreases |s|
  {
    if s == [] then []
    else
      assert s == s[..|s| - 1] + [s[|s| - 1]];
      InsertPermutation(s[|s| - 1], Sort(s[..|s| - 1], le), le);
      Insert(s[|s| - 1], Sort(s[..|s| - 1], le), le)
  }

  lemma {:induction false} InsertSorted<T(!new)>(x: T, s: seq<T>, le: (T, T) -> bool)
    requires TotalPreorder(le) && Sorted(s, le)
    ensures Sorted(Insert(x, s, le), le)
    decreases |s|, 1
  {
    if s != [] && le(s[0], x) {
      InsertSortedAfterHead(x, s, le);
    } else if s != [] {
      InsertSortedInFront(x, s, le);
    }
  }

  /** `x` goes after the head: the head is below everything inserted after it. */
  lemma {:induction false} InsertSortedAfterHead<T(!new)>(x: T, s: seq<T>, le: (T, T) -> bool)
    requires TotalPreorder(le) && Sorted(s, le)
    requires s != [] && le(s[0], x)
    ensures Sorted(Insert(x, s, le), le)
    decreases |s|, 0
  {
    var rest := s[1..];
    TailSorted(s, le);
    InsertSorted(x, rest, le);
    HeadBelowInserted(x, s, le);
    ConsSorted(s[0], Insert(x, rest, le), le);
  }

  lemma TailSorted<T>(s: seq<T>, le: (T, T) -> bool)
    requires s != [] && Sorted(s, le)
    ensures Sorted(s[1..], le)
  {
    var rest := s[1..];
    forall i, j | 0 <= i < j < |rest| ensures le(rest[i], rest[j]) {
      assert rest[i] == s[i + 1] && rest[j] == s[j + 1];
    }
  }

  /** Every element of the insertion into the tail is `x` or a tail element,
      so the head is below it. */
  lemma HeadBelowInserted<T(!new)>(x: T, s: seq<T>, le: (T, T) -> bool)
    requires Sorted(s, le)
    requires s != [] && le(s[0], x)
    ensures forall k :: 0 <= k < |Insert(x, s[1..], le)| ==> le(s[0], Insert(x, s[1..], le)[k])
  {
    var rest := s[1..];
    InsertPermutation(x, rest, le);
    var ins := Insert(x, rest, le);
    forall k | 0 <= k < |ins| ensures le(s[0], ins[k]) {
      assert ins[k] in multiset(ins);
      assert ins[k] == x || ins[k] in multiset(rest);
      if ins[k] != x {
        var m :| 0 <= m < |rest| && rest[m] == ins[k];
        assert rest[m] == s[m + 1];
      }
    }
  }

  /** A head below every element of a sorted tail keeps the list sorted. */
  lemma ConsSorted<T>(h: T, t: seq<T>, le: (T, T) -> bool)
    requires Sorted(t, le)
    requires forall k :: 0 <= k < |t| ==> le(h, t[k])
    ensures Sorted([h] + t, le)
  {
    var r := [h] + t;
    forall i, j | 0 <= i < j < |r| ensures le(r[i], r[j]) {
      if i == 0 {
        assert r[j] == t[j - 1];
      } else {
        assert r[i] == t[i - 1] && r[j] == t[j - 1];
      }
    }
  }

  /** `x` goes in front, below the head and so below every element. */
  lemma InsertSortedInFront<T(!new)>(x: T, s: seq<T>, le: (T, T) -> bool)
    requires TotalPreorder(le) && Sorted(s, le)
    requires s != [] && !le(s[0], x)
    ensures Sorted(Insert(x, s, le), le)
  {
    var r := [x] + s;
    assert le(x, s[0]);
    forall i, j | 0 <= i < j < |r| ensures le(r[i], r[j]) {
      if i == 0 {
        assert r[j] == s[j - 1];
        assert le(s[0], s[j - 1]) || j - 1 == 0;
      } else {
        assert r[i] == s[i - 1] && r[j] == s[j - 1];
      }
    }
  }

  /** The sorted list is ordered and holds exactly the input's elements. */
  lemma {:induction false} SortCorrect<T(!new)>(s: seq<T>, le: (T, T) -> bool)
    requires TotalPreorder(le)
    ensures Sorted(Sort(s, le), le)
    ensures multiset(Sort(s, le)) == multiset(s)
    decreases |s|
  {
    if s != [] {
      var p := s[..|s| - 1];
      SortCorrect(p, le);
      InsertSorted(s[|s| - 1], Sort(p, le), le);
    }
  }

  /** The elements whose key equals that of `y`. */
  function EquivTo<T>(le: (T, T) -> bool, y: T): T -> bool {
    x => le(x, y) && le(y, x)
  }

  /** Inserting puts `x` after the elements not above it and before the
      rest, all of which are above it. */
  lemma {:induction false} InsertSplit<T(!new)>(x: T, s: seq<T>, le: (T, T) -> bool) returns (k: nat)
    requires Transitive(le) && Sorted(s, le)
    ensures k <= |s| && Insert(x, s, le) == s[..k] + [x] + s[k..]
    ensures forall i :: 0 <= i < k ==> le(s[i], x)
    ensures forall i :: k <= i < |s| ==> !le(s[i], x)
    decreases |s|, 1
  {
    if s == [] {
      k := 0;
    } else if le(s[0], x) {
      k := InsertSplitAfterHead(x, s, le);
    } else {
      AllAbove(x, s, le);
      k := 0;
      assert s[..0] + [x] + s[0..] == [x] + s;
    }
  }

  lemma {:induction false} InsertSplitAfterHead<T(!new)>(x: T, s: seq<T>, le: (T, T) -> bool) returns (k: nat)
    requires Transitive(le) && Sorted(s, le) && s != [] && le(s[0], x)
    ensures k <= |s| && Insert(x, s, le) == s[..k] + [x] + s[k..]
    ensures forall i :: 0 <= i < k ==> le(s[i], x)
    ensures forall i :: k <= i < |s| ==> !le(s[i], x)
    decreases |s|, 0
  {
    var t := s[1..];
    TailSorted(s, le);
    var k' := InsertSplit(x, t, le);
    k := k' + 1;
    ConsSplice(s, x, k');
    forall i | 0 < i < |s| ensures s[i] == t[i - 1] {
    }
  }

  /** Putting the head back in front of a splice into the tail. */
  lemma ConsSplice<T>(s: seq<T>, x: T, k: nat)
    requires s != [] && k <= |s| - 1
    ensures [s[0]] + (s[1..][..k] + [x] + s[1..][k..]) == s[..k + 1] + [x] + s[k + 1..]
  {
    assert s[..k + 1] == [s[0]] + s[1..][..k];
    assert s[k + 1..] == s[1..][k..];
  }

  /** Below the head means below every element of a sorted list. */
  lemma AllAbove<T(!new)>(x: T, s: seq<T>, le: (T, T) -> bool)
    requires Transitive(le) && Sorted(s, le) && s != [] && !le(s[0], x)
    ensures forall i :: 0 <= i < |s| ==> !le(s[i], x)
  {
    forall i | 0 < i < |s| ensures !le(s[i], x) {
      assert le(s[0], s[i]);
    }
  }

  /** Inserting `x` into a sorted list appends it to its key class and leaves
      every other class as it was. */
  lemma InsertStable<T(!new)>(x: T, s: seq<T>, le: (T, T) -> bool, y: T)
    requires Transitive(le) && Sorted(s, le)
    ensures Filter(Insert(x, s, le), EquivTo(le, y))
      == Filter(s, EquivTo(le, y)) + (if EquivTo(le, y)(x) then [x] else [])
  {
    var k := InsertSplit(x, s, le);
    var e := EquivTo(le, y);
    var a, b := s[..k], s[k..];
    assert s == a + b;
    if e(x) {
      AboveNotInClass(x, s, k, le, y);
      SpliceInClass(a, x, b, e);
    } else {
      SpliceOutOfClass(a, x, b, e);
    }
  }

  /** Splicing in an `x` that passes the filter, when nothing in `b` does,
      appends it to the filtered list. */
  lemma SpliceInClass<T>(a: seq<T>, x: T, b: seq<T>, e: T -> bool)
    requires e(x) && Filter(b, e) == []
    ensures Filter(a + [x] + b, e) == Filter(a + b, e) + [x]
  {
    FilterAppend(a + [x], b, e);
    FilterAppend(a, b, e);
    var fa := Filter(a, e);
    assert Filter(a + [x], e) == fa + [x] by {
      assert (a + [x])[..|a|] == a;
    }
    assert fa + [x] + [] == fa + [x];
    assert fa + [] == fa;
  }

  /** Splicing in an `x` that fails the filter changes nothing. */
  lemma SpliceOutOfClass<T>(a: seq<T>, x: T, b: seq<T>, e: T -> bool)
    requires !e(x)
    ensures Filter(a + [x] + b, e) == Filter(a + b, e)
  {
    FilterAppend(a + [x], b, e);
    FilterAppend(a, b, e);
    assert Filter(a + [x], e) == Filter(a, e) by {
      assert (a + [x])[..|a|] == a;
    }
  }

  /** Elements above `x` are not in the key class of `x`. */
  lemma AboveNotInClass<T(!new)>(x: T, s: seq<T>, k: nat, le: (T, T) -> bool, y: T)
    requires Transitive(le) && EquivTo(le, y)(x)
    requires k <= |s| && forall i :: k <= i < |s| ==> !le(s[i], x)
    ensures Filter(s[k..], EquivTo(le, y)) == []
  {
    var e := EquivTo(le, y);
    var b := s[k..];
    forall z | z in b ensures !e(z) {
      var i :| 0 <= i < |b| && b[i] == z;
      assert s[k + i] == z;
      assert !le(z, x);
    }
    FilterNone(b, e);
  }

  /** `sorted` is stable: the elements with any one key come out in the
      order they went in. */
  lemma {:induction false} SortStable<T(!new)>(s: seq<T>, le: (T, T) -> bool, y: T)
    requires TotalPreorder(le)
    ensures Filter(Sort(s, le), EquivTo(le, y)) == Filter(s, EquivTo(le, y))
    decreases |s|
  {
    if s != [] {
      var p := s[..|s| - 1];
      SortStable(p, le, y);
      SortCorrect(p, le);
      InsertStable(s[|s| - 1], Sort(p, le), le, y);
    }
  }

  ghost predicate IsMin<T>(s: seq<T>, i: int, le: (T, T) -> bool)
    requires 0 <= i < |s|
  {
    forall j :: 0 <= j < |s| ==> le(s[i], s[j])
  }

  ghost predicate IsMax<T>(s: seq<T>, i: int, le: (T, T) -> bool)
    requires 0 <= i < |s|
  {
    forall j :: 0 <= j < |s| ==> le(s[j], s[i])
  }

  /** Index of the first element that is not above any other. */
  ghost function FirstMin<T(!new)>(s: seq<T>, le: (T, T) -> bool): (i: nat)
    requires s != [] && TotalPreorder(le)
    ensures i < |s| && IsMin(s, i, le)
    ensures forall k :: 0 <= k < i ==> !IsMin(s, k, le)
    decreases |s|
  {
    var p := s[..|s| - 1];
    var x := s[|s| - 1];
    if p == [] then 0
    else
      var j := FirstMin(p, le);
      assert forall k :: 0 <= k < |p| ==> p[k] == s[k];
      assert forall k :: 0 <= k < |s| - 1 && IsMin(s, k, le) ==> IsMin(p, k, le);
      if le(p[j], x) then j else |s| - 1
  }

  /** Index of the last element that is not below any other. */
  ghost function LastMax<T(!new)>(s: seq<T>, le: (T, T) -> bool): (i: nat)
    requires s != [] && TotalPreorder(le)
    ensures i < |s| && IsMax(s, i, le)
    ensures forall k :: i < k < |s| ==> !IsMax(s, k, le)
    decreases |s|
  {
    var p := s[..|s| - 1];
    var x := s[|s| - 1];
    if p == [] then 0
    else
      var j := LastMax(p, le);
      assert forall k :: 0 <= k < |p| ==> p[k] == s[k];
      if le(p[j], x) then |s| - 1
      else
        assert forall k :: j < k < |s| - 1 && IsMax(s, k, le) ==> IsMax(p, k, le);
        j
  }

  lemma InsertFirst<T>(x: T, s: seq<T>, le: (T, T) -> bool)
    requires s != []
    ensures Insert(x, s, le)[0] == if le(s[0], x) then s[0] else x
  {
  }

  lemma InsertLast<T(!new)>(x: T, s: seq<T>, le: (T, T) -> bool)
    requires Transitive(le) && Sorted(s, le) && s != []
    ensures Insert(x, s, le)[|s|] == if le(s[|s| - 1], x) then x else s[|s| - 1]
  {
    var k := InsertSplit(x, s, le);
    SpliceLast(s, x, k);
    assert k == |s| <==> le(s[|s| - 1], x);
  }

  /** The last element of a splice. */
  lemma SpliceLast<T>(s: seq<T>, x: T, k: nat)
    requires s != [] && k <= |s|
    ensures (s[..k] + [x] + s[k..])[|s|] == if k == |s| then x else s[|s| - 1]
  {
    if k < |s| {
      assert (s[..k] + [x] + s[k..])[|s|] == s[k..][|s| - 1 - k];
    }
  }

  /** The sorted list starts with the input's first minimal element. */
  lemma {:induction false} SortFirst<T(!new)>(s: seq<T>, le: (T, T) -> bool)
    requires TotalPreorder(le) && s != []
    ensures Sort(s, le)[0] == s[FirstMin(s, le)]
    decreases |s|
  {
    var p := s[..|s| - 1];
    if p != [] {
      SortFirst(p, le);
      InsertFirst(s[|s| - 1], Sort(p, le), le);
    }
  }

  /** The sorted list ends with the input's last maximal element: ties keep
      their input order. */
  lemma {:induction false} SortLast<T(!new)>(s: seq<T>, le: (T, T) -> bool)
    requires TotalPreorder(le) && s != []
    ensures Sort(s, le)[|s| - 1] == s[LastMax(s, le)]
    decreases |s|
  {
    var p := s[..|s| - 1];
    var x := s[|s| - 1];
    if p != [] {
      var sp := Sort(p, le);
      assert Sort(s, le) == Insert(x, sp, le);
      SortLast(p, le);
      SortCorrect(p, le);
      InsertLast(x, sp, le);
      var j := LastMax(p, le);
      assert sp[|p| - 1] == p[j] && p[j] == s[j];
      assert LastMax(s, le) == if le(p[j], x) then |s| - 1 else j;
    }
  }

  /** Python's `a <= b` on strings: code point by code point, a proper prefix
      first. */
  predicate LexLe(a: string, b: string): (r: bool)
    ensures StartsWith(b, a) ==> r
    ensures a != [] && b != [] && a[0] != b[0] ==> (r <==> a[0] < b[0])
    ensures r && a != [] ==> b != []
    decreases |a|
  {
    a == [] || (b != [] && (a[0] < b[0] || (a[0] == b[0] && LexLe(a[1..], b[1..]))))
  }

  lemma {:induction false} LexLeTotal(a: string, b: string)
    ensures LexLe(a, b) || LexLe(b, a)
    decreases |a|
  {
    if a != [] && b != [] && a[0] == b[0] {
      LexLeTotal(a[1..], b[1..]);
    }
  }

  lemma {:induction false} LexLeTransitive(a: string, b: string, c: string)
    requires LexLe(a, b) && LexLe(b, c)
    ensures LexLe(a, c)
    decreases |a|
  {
    if a != [] && a[0] == b[0] && b[0] == c[0] {
      LexLeTransitive(a[1..], b[1..], c[1..]);
    }
  }

  lemma LexLeTotalPreorder()
    ensures TotalPreorder(LexLe)
  {
    forall a, b ensures LexLe(a, b) || LexLe(b, a) {
      LexLeTotal(a, b);
    }
    forall a, b, c | LexLe(a, b) && LexLe(b, c) ensures LexLe(a, c) {
      LexLeTransitive(a, b, c);
    }
  }

  ghost predicate Distinct<T>(s: seq<T>) {
    forall i, j :: 0 <= i < j < |s| ==> s[i] != s[j]
  }

  /** A sequence has no repeated element exactly when no element occurs
      twice in its multiset. */
  lemma {:induction false} DistinctCounts<T>(s: seq<T>)
    ensures Distinct(s) <==> forall x :: multiset(s)[x] <= 1
    decreases |s|
  {
    if s != [] {
      var p := s[..|s| - 1];
      var y := s[|s| - 1];
      assert s == p + [y];
      DistinctCounts(p);
      if Distinct(s) {
        assert Distinct(p) by {
          forall i, j | 0 <= i < j < |p| ensures p[i] != p[j] {
            assert p[i] == s[i] && p[j] == s[j];
          }
        }
        assert y !in p;
      } else {
        var i, j :| 0 <= i < j < |s| && s[i] == s[j];
        if j < |s| - 1 {
          assert p[i] == p[j];
          assert !Distinct(p);
          var x :| multiset(p)[x] > 1;
          assert multiset(s)[x] == multiset(p)[x] + multiset([y])[x];
        } else {
          assert p[i] == y;
          assert multiset(s)[y] == multiset(p)[y] + 1;
        }
      }
    }
  }

  /** Reordering keeps a sequence free of repeats. */
  lemma PermutationDistinct<T>(a: seq<T>, b: seq<T>)
    requires multiset(a) == multiset(b) && Distinct(a)
    ensures Distinct(b)
  {
    DistinctCounts(a);
    DistinctCounts(b);
  }
}
