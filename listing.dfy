/** The array combinators the modelled code is written with: `filter`,
    `slice(0, n)`, counting with `filter(...).length`, and `sort` by a numeric key.
    Their properties are proved once here and used by the airport matchers and
    the portal views. */
module Listing {
  import opened Wrappers

  /** `s.filter(p)`. */
  function Filter<T>(p: T -> bool, s: seq<T>): (r: seq<T>)
    ensures |r| <= |s|
    ensures forall k :: 0 <= k < |r| ==> r[k] in s && p(r[k])
  {
    if |s| == 0 then []
    else (if p(s[0]) then [s[0]] else []) + Filter(p, s[1..])
  }

  /** `s.filter(p).length`, counted independently of Filter. */
  function Count<T>(p: T -> bool, s: seq<T>): nat {
    if |s| == 0 then 0 else (if p(s[0]) then 1 else 0) + Count(p, s[1..])
  }

  /** `s.slice(0, n)`. */
  function Take<T>(s: seq<T>, n: nat): (r: seq<T>)
    ensures |r| == if |s| <= n then |s| else n
    ensures r == s[..|r|]
  {
    if |s| <= n then s else s[..n]
  }

  /** r is obtained from s by deleting elements, keeping the order of the rest. */
  ghost predicate IsSubsequence<T>(r: seq<T>, s: seq<T>) {
    if |r| == 0 then true
    else if |s| == 0 then false
    else (r[0] == s[0] && IsSubsequence(r[1..], s[1..])) || IsSubsequence(r, s[1..])
  }

  lemma {:induction false} FilterLength<T>(p: T -> bool, s: seq<T>)
    ensures |Filter(p, s)| == Count(p, s)
  {
    if |s| > 0 {
      FilterLength(p, s[1..]);
    }
  }

  /** Every element of s that satisfies p is kept. */
  lemma {:induction false} FilterKeeps<T>(p: T -> bool, s: seq<T>, x: T)
    requires x in s && p(x)
    ensures x in Filter(p, s)
  {
    if s[0] != x {
      FilterKeeps(p, s[1..], x);
    }
  }

  lemma {:induction false} CountAppend<T>(p: T -> bool, a: seq<T>, b: seq<T>)
    ensures Count(p, a + b) == Count(p, a) + Count(p, b)
  {
    if |a| > 0 {
      assert (a + b)[0] == a[0] && (a + b)[1..] == a[1..] + b;
      CountAppend(p, a[1..], b);
    } else {
      assert a + b == b;
    }
  }

  lemma {:induction false} FilterAppend<T>(p: T -> bool, a: seq<T>, b: seq<T>)
    ensures Filter(p, a + b) == Filter(p, a) + Filter(p, b)
  {
    if |a| > 0 {
      assert (a + b)[0] == a[0] && (a + b)[1..] == a[1..] + b;
      FilterAppend(p, a[1..], b);
    } else {
      assert a + b == b;
    }
  }

  /** The element at position i of s, when it satisfies p, is the k-th element of
      the filtered list, where k is the number of elements before it that satisfy p.
      So no satisfying element is skipped and the order of s is kept. */
  lemma {:induction false} FilterAt<T>(p: T -> bool, s: seq<T>, i: nat)
    requires i < |s| && p(s[i])
    ensures Count(p, s[..i]) < |Filter(p, s)|
    ensures Filter(p, s)[Count(p, s[..i])] == s[i]
  {
    var head := if p(s[0]) then [s[0]] else [];
    assert Filter(p, s) == head + Filter(p, s[1..]);
    if i == 0 {
      assert s[..0] == [];
    } else {
      FilterAt(p, s[1..], i - 1);
      CountPrefix(p, s, i);
    }
  }

  /** Counting over a prefix of length i > 0 counts the head, then a prefix of the tail. */
  lemma CountPrefix<T>(p: T -> bool, s: seq<T>, i: nat)
    requires 0 < i <= |s|
    ensures Count(p, s[..i]) == (if p(s[0]) then 1 else 0) + Count(p, s[1..][..i - 1])
  {
    assert s[..i][0] == s[0] && s[..i][1..] == s[1..][..i - 1];
  }

  /** Conversely, the k-th element of the filtered list sits at some position i of
      s with exactly k satisfying elements before it. */
  lemma {:induction false} FilterFrom<T>(p: T -> bool, s: seq<T>, k: nat)
    requires k < |Filter(p, s)|
    ensures exists i :: 0 <= i < |s| && p(s[i]) && Count(p, s[..i]) == k && Filter(p, s)[k] == s[i]
  {
    var head := if p(s[0]) then [s[0]] else [];
    assert Filter(p, s) == head + Filter(p, s[1..]);
    if p(s[0]) && k == 0 {
      assert s[..0] == [];
      assert p(s[0]) && Count(p, s[..0]) == 0 && Filter(p, s)[0] == s[0];
    } else {
      var k' := k - |head|;
      FilterFrom(p, s[1..], k');
      var j :| 0 <= j < |s[1..]| && p(s[1..][j]) && Count(p, s[1..][..j]) == k' && Filter(p, s[1..])[k'] == s[1..][j];
      CountPrefix(p, s, j + 1);
      assert p(s[j + 1]) && Count(p, s[..j + 1]) == k && Filter(p, s)[k] == s[j + 1];
    }
  }

  lemma {:induction false} FilterIsSubsequence<T>(p: T -> bool, s: seq<T>)
    ensures IsSubsequence(Filter(p, s), s)
  {
    if |s| > 0 {
      FilterIsSubsequence(p, s[1..]);
      var r := Filter(p, s);
      if p(s[0]) {
        assert r[0] == s[0] && r[1..] == Filter(p, s[1..]);
      } else {
        assert r == Filter(p, s[1..]);
      }
    }
  }

  lemma {:induction false} PrefixIsSubsequence<T>(r: seq<T>, s: seq<T>, n: nat)
    requires IsSubsequence(r, s) && n <= |r|
    ensures IsSubsequence(r[..n], s)
  {
    if n > 0 {
      if r[0] == s[0] && IsSubsequence(r[1..], s[1..]) {
        PrefixIsSubsequence(r[1..], s[1..], n - 1);
        assert r[..n][1..] == r[1..][..n - 1];
      } else {
        PrefixIsSubsequence(r, s[1..], n);
      }
    }
  }

  /** A filtered list cut to its first n elements is still a subsequence of s. */
  lemma TakeFilterIsSubsequence<T>(p: T -> bool, s: seq<T>, n: nat)
    ensures IsSubsequence(Take(Filter(p, s), n), s)
  {
    FilterIsSubsequence(p, s);
    PrefixIsSubsequence(Filter(p, s), s, |Take(Filter(p, s), n)|);
  }

  /** Filtering twice with the same predicate changes nothing. */
  lemma {:induction false} FilterIdempotent<T>(p: T -> bool, s: seq<T>)
    ensures Filter(p, Filter(p, s)) == Filter(p, s)
  {
    if |s| > 0 {
      FilterIdempotent(p, s[1..]);
      var r := Filter(p, s);
      if p(s[0]) {
        assert r[0] == s[0] && r[1..] == Filter(p, s[1..]);
      } else {
        assert r == Filter(p, s[1..]);
      }
    }
  }

  /** A filter that rejects nothing returns its input. */
  lemma {:induction false} FilterAll<T>(p: T -> bool, s: seq<T>)
    requires forall k :: 0 <= k < |s| ==> p(s[k])
    ensures Filter(p, s) == s
  {
    if |s| > 0 {
      FilterAll(p, s[1..]);
      assert s == [s[0]] + s[1..];
    }
  }

  /** Removing elements cannot raise the number that satisfy another predicate. */
  lemma {:induction false} CountFilter<T>(q: T -> bool, p: T -> bool, s: seq<T>)
    ensures Count(q, Filter(p, s)) <= Count(q, s)
  {
    if |s| > 0 {
      CountFilter(q, p, s[1..]);
      if p(s[0]) {
        var r := Filter(p, s);
        assert r[0] == s[0] && r[1..] == Filter(p, s[1..]);
      } else {
        assert Filter(p, s) == Filter(p, s[1..]);
      }
    }
  }

  /** `s.findIndex(p)`, with |s| standing for "not found". */
  function FindIndex<T>(p: T -> bool, s: seq<T>): (i: nat)
    ensures i <= |s|
    ensures i < |s| ==> p(s[i])
    ensures forall j :: 0 <= j < i ==> !p(s[j])
  {
    if |s| == 0 then 0
    else if p(s[0]) then 0
    else 1 + FindIndex(p, s[1..])
  }

  /** `s.find(p)`: the first element that satisfies p, if any. */
  function Find<T>(p: T -> bool, s: seq<T>): (r: Option<T>)
    ensures r.None? <==> forall k :: 0 <= k < |s| ==> !p(s[k])
    ensures r.Some? ==> exists i :: 0 <= i < |s| && s[i] == r.value && p(s[i]) &&
                                   forall j :: 0 <= j < i ==> !p(s[j])
  {
    var i := FindIndex(p, s);
    if i < |s| then Some(s[i]) else None
  }

  /** The element `find` returns is the first satisfying one. */
  lemma FindFirst<T>(p: T -> bool, s: seq<T>, k: nat)
    requires k < |s| && p(s[k]) && forall j :: 0 <= j < k ==> !p(s[j])
    ensures Find(p, s) == Some(s[k])
  {
    assert FindIndex(p, s) == k;
  }

  // ---------------------------------------------------------------------------
  // Sorting by a numeric key (Array.prototype.sort with `(a, b) => key(a) - key(b)`)

  predicate SortedBy<T>(key: T -> int, s: seq<T>) {
    forall i, j :: 0 <= i < j < |s| ==> key(s[i]) <= key(s[j])
  }

  function Insert<T>(key: T -> int, x: T, s: seq<T>): (r: seq<T>)
    requires SortedBy(key, s)
    ensures SortedBy(key, r)
    ensures multiset(r) == multiset(s) + multiset{x}
  {
    if |s| == 0 then [x]
    else if key(x) <= key(s[0]) then [x] + s
    else
      var t := Insert(key, x, s[1..]);
      assert s == [s[0]] + s[1..];
      InsertBound(key, x, s, t);
      [s[0]] + t
  }

  /** What is inserted behind the head of a sorted list keeps the head's key as
      a lower bound. */
  lemma InsertBound<T>(key: T -> int, x: T, s: seq<T>, t: seq<T>)
    requires |s| > 0 && SortedBy(key, s) && key(s[0]) < key(x)
    requires multiset(t) == multiset(s[1..]) + multiset{x}
    ensures forall k :: 0 <= k < |t| ==> key(s[0]) <= key(t[k])
  {
    forall k | 0 <= k < |t| ensures key(s[0]) <= key(t[k]) {
      assert t[k] in multiset(t);
      if t[k] != x {
        assert t[k] in multiset(s[1..]);
        var j :| 1 <= j < |s| && s[j] == t[k];
      }
    }
  }

  /** A stable insertion sort, ascending in key. */
  function SortBy<T>(key: T -> int, s: seq<T>): (r: seq<T>)
    ensures SortedBy(key, r)
    ensures multiset(r) == multiset(s)
  {
    if |s| == 0 then []
    else
      assert s == [s[0]] + s[1..];
      Insert(key, s[0], SortBy(key, s[1..]))
  }

  /** Sorting keeps exactly the elements of its input. */
  lemma SortByMembers<T>(key: T -> int, s: seq<T>, x: T)
    ensures x in SortBy(key, s) <==> x in s
  {
    assert x in SortBy(key, s) <==> x in multiset(SortBy(key, s));
  }

  /** Sorting a filtered list yields exactly the selected elements, as many as
      satisfy the predicate. */
  lemma SortedSelection<T>(key: T -> int, p: T -> bool, s: seq<T>)
    ensures forall x :: x in SortBy(key, Filter(p, s)) <==> x in s && p(x)
    ensures |SortBy(key, Filter(p, s))| == Count(p, s)
  {
    var mine := Filter(p, s);
    var r := SortBy(key, mine);
    FilterLength(p, s);
    assert |r| == |multiset(r)| == |multiset(mine)| == |mine|;
    forall x ensures x in r <==> x in s && p(x) {
      SortByMembers(key, mine, x);
      if x in s && p(x) {
        FilterKeeps(p, s, x);
      }
    }
  }

  /** The same, element by element. */
  lemma SortedSelectionAt<T>(key: T -> int, p: T -> bool, s: seq<T>)
    ensures forall k :: 0 <= k < |SortBy(key, Filter(p, s))| ==>
              SortBy(key, Filter(p, s))[k] in s && p(SortBy(key, Filter(p, s))[k])
  {
    var r := SortBy(key, Filter(p, s));
    forall k | 0 <= k < |r| ensures r[k] in s && p(r[k]) {
      assert r[k] in r;
      SortByMembers(key, Filter(p, s), r[k]);
    }
  }

  // ---------------------------------------------------------------------------
  // `reduce((sum, x) => sum + f(x), 0)`

  function SumBy<T>(f: T -> int, s: seq<T>): int {
    if |s| == 0 then 0 else f(s[0]) + SumBy(f, s[1..])
  }

  lemma {:induction false} SumByAppend<T>(f: T -> int, a: seq<T>, b: seq<T>)
    ensures SumBy(f, a + b) == SumBy(f, a) + SumBy(f, b)
  {
    if |a| > 0 {
      assert (a + b)[0] == a[0] && (a + b)[1..] == a[1..] + b;
      SumByAppend(f, a[1..], b);
    } else {
      assert a + b == b;
    }
  }
}
