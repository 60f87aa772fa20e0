/** Ruby's `String#<=>` (byte-wise comparison, a proper prefix first) and
    `Array#sort` over strings, with the facts that make the sorted pair list
    of a query string independent of the order the pairs were produced in. */
module ByteOrder {

  /** `a <= b` in Ruby's string order. */
  predicate Below(a: string, b: string) {
    a == [] || (b != [] && (a[0] < b[0] || (a[0] == b[0] && Below(a[1..], b[1..]))))
  }

  lemma {:induction false} BelowReflexive(a: string)
    ensures Below(a, a)
  {
    if a != [] {
      BelowReflexive(a[1..]);
    }
  }

  lemma {:induction false} BelowTotal(a: string, b: string)
    ensures Below(a, b) || Below(b, a)
  {
    if a != [] && b != [] && a[0] == b[0] {
      BelowTotal(a[1..], b[1..]);
    }
  }

  lemma {:induction false} BelowAntisymmetric(a: string, b: string)
    requires Below(a, b) && Below(b, a)
    ensures a == b
  {
    if a != [] && b != [] {
      BelowAntisymmetric(a[1..], b[1..]);
      assert a == [a[0]] + a[1..] && b == [b[0]] + b[1..];
    }
  }

  lemma {:induction false} BelowTransitive(a: string, b: string, c: string)
    requires Below(a, b) && Below(b, c)
    ensures Below(a, c)
  {
    if a != [] && b != [] && c != [] && a[0] == b[0] == c[0] {
      BelowTransitive(a[1..], b[1..], c[1..]);
    }
  }

  predicate Sorted(s: seq<string>) {
    forall i, j :: 0 <= i < j < |s| ==> Below(s[i], s[j])
  }

  /** Two strings that agree up to position `i` and differ there are
      ordered by their characters at `i`. */
  lemma {:induction false} BelowAt(a: string, b: string, i: nat)
    requires i < |a| && i < |b| && a[..i] == b[..i] && a[i] < b[i]
    ensures Below(a, b)
  {
    if i > 0 {
      assert a[0] == a[..i][0] == b[..i][0] == b[0];
      assert a[1..][..i - 1] == a[1..i] == b[1..i] == b[1..][..i - 1];
      BelowAt(a[1..], b[1..], i - 1);
    }
  }

  /** A list whose neighbours are in order is sorted. */
  lemma {:induction false} SortedChain(s: seq<string>)
    requires forall i :: 0 <= i < |s| - 1 ==> Below(s[i], s[i + 1])
    ensures Sorted(s)
  {
    if |s| > 1 {
      SortedChain(s[1..]);
      forall j | 1 <= j < |s| ensures Below(s[0], s[j]) {
        if j > 1 {
          assert Below(s[1..][0], s[1..][j - 1]);
          BelowTransitive(s[0], s[1], s[j]);
        }
      }
      forall i, j | 0 <= i < j < |s| ensures Below(s[i], s[j]) {
        if i > 0 {
          assert Below(s[1..][i - 1], s[1..][j - 1]);
        }
      }
    }
  }

  /** `x` goes in front of the first element it is below. */
  function Insert(x: string, s: seq<string>): (r: seq<string>)
    requires Sorted(s)
    ensures Sorted(r)
    ensures multiset(r) == multiset(s) + multiset{x}
  {
    if s == [] then [x]
    else if Below(x, s[0]) then
      InsertFrontSorted(x, s);
      [x] + s
    else
      var tail := Insert(x, s[1..]);
      InsertBehindSorted(x, s, tail);
      assert s == [s[0]] + s[1..];
      [s[0]] + tail
  }

  lemma InsertFrontSorted(x: string, s: seq<string>)
    requires Sorted(s) && s != [] && Below(x, s[0])
    ensures Sorted([x] + s)
  {
    forall j | 0 < j < |s| + 1
      ensures Below(([x] + s)[0], ([x] + s)[j])
    {
      if j > 1 { BelowTransitive(x, s[0], s[j - 1]); }
    }
  }

  lemma InsertBehindSorted(x: string, s: seq<string>, tail: seq<string>)
    requires Sorted(s) && s != [] && !Below(x, s[0])
    requires Sorted(tail) && multiset(tail) == multiset(s[1..]) + multiset{x}
    ensures Sorted([s[0]] + tail)
  {
    BelowTotal(x, s[0]);
    forall j | 0 <= j < |tail|
      ensures Below(s[0], tail[j])
    {
      assert tail[j] in multiset(tail);
      if tail[j] != x {
        assert tail[j] in multiset(s[1..]);
        var k :| 0 <= k < |s[1..]| && s[1..][k] == tail[j];
        assert s[k + 1] == tail[j];
      }
    }
  }

  /** Ruby's `Array#sort` on strings, as insertion sort. */
  function Sort(s: seq<string>): (r: seq<string>)
    ensures Sorted(r)
    ensures multiset(r) == multiset(s)
  {
    if s == [] then []
    else
      assert s == [s[0]] + s[1..];
      Insert(s[0], Sort(s[1..]))
  }

  lemma MultisetOfTail(s: seq<string>)
    requires s != []
    ensures multiset(s[1..]) == multiset(s) - multiset{s[0]}
  {
    assert s == [s[0]] + s[1..];
  }

  /** A sorted list is determined by its elements: two sorted lists holding
      the same strings are the same list. */
  lemma {:induction false} SortedUnique(a: seq<string>, b: seq<string>)
    requires Sorted(a) && Sorted(b)
    requires multiset(a) == multiset(b)
    ensures a == b
  {
    if a != [] {
      assert a[0] in multiset(b);
      assert b != [];
      assert b[0] in multiset(a);
      var i :| 0 <= i < |a| && a[i] == b[0];
      var j :| 0 <= j < |b| && b[j] == a[0];
      assert Below(a[0], b[0]) by {
        if i > 0 { assert Below(a[0], a[i]); } else { BelowReflexive(a[0]); }
      }
      assert Below(b[0], a[0]) by {
        if j > 0 { assert Below(b[0], b[j]); } else { BelowReflexive(b[0]); }
      }
      BelowAntisymmetric(a[0], b[0]);
      MultisetOfTail(a);
      MultisetOfTail(b);
      SortedUnique(a[1..], b[1..]);
    } else {
      assert |multiset(b)| == 0;
    }
  }

  /** Sorting forgets the order of its input. */
  lemma SortIgnoresOrder(a: seq<string>, b: seq<string>)
    requires multiset(a) == multiset(b)
    ensures Sort(a) == Sort(b)
  {
    SortedUnique(Sort(a), Sort(b));
  }

  /** Sorting a list already in order leaves it alone. */
  lemma SortOfSorted(s: seq<string>)
    requires Sorted(s)
    ensures Sort(s) == s
  {
    SortedUnique(Sort(s), s);
  }
}
