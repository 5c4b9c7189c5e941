/** Example 9, "functional programming": the even numbers of `1...10` by
    `filter` instead of a loop that appends to `newEvens`. */
module Functional {

  /** `Array(lo...hi)`. A closed range with `hi < lo` traps in Swift, so
      callers must supply `lo <= hi`. */
  function ClosedRange(lo: int, hi: int): (r: seq<int>)
    requires lo <= hi
    ensures |r| == hi - lo + 1
    ensures forall k :: 0 <= k < |r| ==> r[k] == lo + k
    decreases hi - lo
  {
    if lo == hi then [lo] else ClosedRange(lo, hi - 1) + [hi]
  }

  /** Swift's `filter`: the elements of `s` that satisfy `isIncluded`, in
      their original order. */
  function Filter<T(!new)>(s: seq<T>, isIncluded: T -> bool): (r: seq<T>)
    ensures |r| <= |s|
    ensures forall x :: x in r <==> x in s && isIncluded(x)
    ensures forall x :: multiset(r)[x] == if isIncluded(x) then multiset(s)[x] else 0
  {
    if s == [] then []
    else
      var init, last := s[..|s| - 1], s[|s| - 1];
      assert s == init + [last];
      var rest := Filter(init, isIncluded);
      if isIncluded(last) then rest + [last] else rest
  }

  /** `$0 % 2 == 0`. Swift's `%` truncates towards zero and Dafny's is
      Euclidean, but the two agree on whether the remainder is zero. */
  predicate IsEven(n: int) {
    n % 2 == 0
  }

  /** `Array(lo...hi).filter { $0 % 2 == 0 }` */
  function Evens(lo: int, hi: int): seq<int>
    requires lo <= hi
  {
    Filter(ClosedRange(lo, hi), IsEven)
  }

  predicate StrictlyIncreasing(s: seq<int>) {
    forall i, j :: 0 <= i < j < |s| ==> s[i] < s[j]
  }

  /** Filtering one more element at the end extends the result by that
      element when it is kept. */
  lemma FilterSnoc<T(!new)>(s: seq<T>, x: T, isIncluded: T -> bool)
    ensures Filter(s + [x], isIncluded)
            == Filter(s, isIncluded) + (if isIncluded(x) then [x] else [])
  {
    assert (s + [x])[..|s|] == s;
  }

  /** Filtering keeps the order of what it keeps. */
  lemma {:induction false} FilterKeepsIncreasing(s: seq<int>, isIncluded: int -> bool)
    requires StrictlyIncreasing(s)
    ensures StrictlyIncreasing(Filter(s, isIncluded))
  {
    if s != [] {
      var init := s[..|s| - 1];
      assert StrictlyIncreasing(init);
      FilterKeepsIncreasing(init, isIncluded);
      var rest := Filter(init, isIncluded);
      if isIncluded(s[|s| - 1]) {
        forall x | x in rest
          ensures x < s[|s| - 1]
        {
          var k :| 0 <= k < |init| && init[k] == x;
        }
        var r := rest + [s[|s| - 1]];
        forall i, j | 0 <= i < j < |r|
          ensures r[i] < r[j]
        {
          if j == |r| - 1 {
            assert r[i] in rest;
          }
        }
      }
    }
  }

  /** The evens of `lo...hi` are exactly the even numbers between `lo` and
      `hi`, in ascending order. */
  lemma EvensExactly(lo: int, hi: int)
    requires lo <= hi
    ensures forall x :: x in Evens(lo, hi) <==> lo <= x <= hi && IsEven(x)
    ensures StrictlyIncreasing(Evens(lo, hi))
  {
    var range := ClosedRange(lo, hi);
    forall x
      ensures x in range <==> lo <= x <= hi
    {
      if lo <= x <= hi {
        assert range[x - lo] == x;
      }
    }
    FilterKeepsIncreasing(range, IsEven);
  }

  /** Extending the range by one number extends its evens by that number
      when it is even. */
  lemma EvensSnoc(lo: int, hi: int)
    requires lo < hi
    ensures Evens(lo, hi) == Evens(lo, hi - 1) + (if IsEven(hi) then [hi] else [])
  {
    FilterSnoc(ClosedRange(lo, hi - 1), hi, IsEven);
  }

  lemma FirstIsElement(s: seq<int>)
    ensures s != [] ==> s[0] in s
  {
  }

  /** A strictly increasing sequence is determined by its elements. */
  lemma {:induction false} IncreasingByElements(r: seq<int>, t: seq<int>)
    requires StrictlyIncreasing(r) && StrictlyIncreasing(t)
    requires forall x :: x in r <==> x in t
    ensures r == t
    decreases |r|
  {
    if r == [] || t == [] {
      FirstIsElement(r);
      FirstIsElement(t);
    } else {
      var a, b := r[|r| - 1], t[|t| - 1];
      assert a <= b by {
        assert a in r && a in t;
        var i :| 0 <= i < |t| && t[i] == a;
      }
      assert b <= a by {
        assert b in t && b in r;
        var i :| 0 <= i < |r| && r[i] == b;
      }
      var r', t' := r[..|r| - 1], t[..|t| - 1];
      forall x
        ensures x in r' <==> x in t'
      {
        if x in r' {
          var i :| 0 <= i < |r'| && r'[i] == x;
          assert x in t && x != b;
          var j :| 0 <= j < |t| && t[j] == x;
          assert t'[j] == x;
        }
        if x in t' {
          var j :| 0 <= j < |t'| && t'[j] == x;
          assert x in r && x != a;
          var i :| 0 <= i < |r| && r[i] == x;
          assert r'[i] == x;
        }
      }
      IncreasingByElements(r', t');
      assert r == r' + [a] && t == t' + [b];
    }
  }

  /** The evens of `lo...hi` are the one ascending sequence of the even
      numbers between `lo` and `hi`. */
  lemma EvensAre(lo: int, hi: int, expected: seq<int>)
    requires lo <= hi
    requires StrictlyIncreasing(expected)
    requires forall x :: x in expected <==> lo <= x <= hi && IsEven(x)
    ensures Evens(lo, hi) == expected
  {
    EvensExactly(lo, hi);
    IncreasingByElements(Evens(lo, hi), expected);
  }

  /** `Array(1...10).filter { $0 % 2 == 0 }` is `[2, 4, 6, 8, 10]`. */
  lemma EvensOneToTen()
    ensures Evens(1, 10) == [2, 4, 6, 8, 10]
  {
    var expected := [2, 4, 6, 8, 10];
    forall x
      ensures x in expected <==> 1 <= x <= 10 && IsEven(x)
    {
      if 1 <= x <= 10 && IsEven(x) {
        assert x == 2 || x == 4 || x == 6 || x == 8 || x == 10;
      }
    }
    EvensAre(1, 10, expected);
  }

  /** The commented-out loop: `var newEvens = [Int]()`, then
      `for i in lo...hi { if i % 2 == 0 { newEvens.append(i) } }`. It builds
      the same array as the `filter`. */
  method EvensByLoop(lo: int, hi: int) returns (newEvens: seq<int>)
    requires lo <= hi
    ensures newEvens == Evens(lo, hi)
  {
    newEvens := [];
    for i := lo to hi + 1
      invariant i == lo ==> newEvens == []
      invariant i > lo ==> newEvens == Evens(lo, i - 1)
    {
      if i % 2 == 0 {
        newEvens := newEvens + [i];
      }
      if i == lo {
        assert ClosedRange(lo, i) == [] + [i];
        FilterSnoc([], i, IsEven);
      } else {
        EvensSnoc(lo, i);
      }
    }
  }

  /** `nine()` */
  function Nine(): (evens: seq<int>)
    ensures evens == [2, 4, 6, 8, 10]
  {
    EvensOneToTen();
    Evens(1, 10)
  }
}
