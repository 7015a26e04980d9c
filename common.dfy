/** Shared vocabulary of the backend model: identifiers, optional values,
    controller outcomes, and the list operations that the database queries of
    the controllers reduce to (first match, filter, sum, sort, pagination). */
module Common {

  /** An ObjectId as the hexadecimal text the requests carry. */
  type Id = string

  /** A positive number, as the `page` and `limit` query parameters are taken to be. */
  type Pos = n: nat | n >= 1 witness 1

  datatype Option<T> = None | Some(value: T)

  /** What a controller answers: the data of a 200 response, or an HTTP error
      status with the message the response carries. */
  datatype Result<T> = Ok(value: T) | Err(status: nat, message: string)

  /** The index of the first element satisfying `p`: the document a `findOne`
      returns when documents are scanned in insertion order. */
  function FirstWhere<T>(s: seq<T>, p: T -> bool): (r: Option<nat>)
    ensures r.Some? ==> r.value < |s| && p(s[r.value])
    ensures r.Some? ==> forall j :: 0 <= j < r.value ==> !p(s[j])
    ensures r.None? <==> forall j :: 0 <= j < |s| ==> !p(s[j])
  {
    if |s| == 0 then None
    else if p(s[0]) then Some(0)
    else match FirstWhere(s[1..], p)
      case None => None
      case Some(k) => Some(k + 1)
  }

  /** `FirstWhere` sees only the predicate's values. */
  lemma {:induction false} FirstWhereSameMatches<T>(s: seq<T>, t: seq<T>, p: T -> bool)
    requires |s| == |t| && forall j :: 0 <= j < |s| ==> p(s[j]) == p(t[j])
    ensures FirstWhere(s, p) == FirstWhere(t, p)
  {
    if |s| > 0 { FirstWhereSameMatches(s[1..], t[1..], p); }
  }

  /** An appended element that fails `p` does not change what is found. */
  lemma FirstWhereSnoc<T>(s: seq<T>, x: T, p: T -> bool)
    requires !p(x)
    ensures FirstWhere(s + [x], p) == FirstWhere(s, p)
  {
    var r := FirstWhere(s + [x], p);
    if r.Some? {
      assert (s + [x])[r.value] == s[r.value];
      assert forall j :: 0 <= j < r.value ==> (s + [x])[j] == s[j];
    } else {
      assert forall j :: 0 <= j < |s| ==> (s + [x])[j] == s[j];
    }
  }

  /** Replacing an element by one that `p` judges alike keeps the number
      of elements the filter keeps. */
  lemma {:induction false} FilterCountUpdate<T>(s: seq<T>, i: nat, x: T, p: T -> bool)
    requires i < |s| && p(s[i]) == p(x)
    ensures |Filter(s[i := x], p)| == |Filter(s, p)|
  {
    if i == 0 {
      assert s[i := x][1..] == s[1..];
    } else {
      assert s[i := x][1..] == s[1..][i - 1 := x];
      FilterCountUpdate(s[1..], i - 1, x, p);
    }
  }

  /** No element satisfies `p`, so nothing is found. */
  lemma {:induction false} FirstWhereNone<T>(s: seq<T>, p: T -> bool)
    requires forall j :: 0 <= j < |s| ==> !p(s[j])
    ensures FirstWhere(s, p).None?
  {
    if |s| > 0 { FirstWhereNone(s[1..], p); }
  }

  /** The elements satisfying `p`, in their stored order (a `find` filter). */
  function Filter<T>(s: seq<T>, p: T -> bool): (r: seq<T>)
    ensures |r| <= |s|
    ensures forall i :: 0 <= i < |r| ==> p(r[i])
  {
    if |s| == 0 then [] else (if p(s[0]) then [s[0]] else []) + Filter(s[1..], p)
  }

  /** The filter keeps exactly the elements satisfying `p`. */
  lemma {:induction false} FilterMembers<T>(s: seq<T>, p: T -> bool)
    ensures forall i :: 0 <= i < |Filter(s, p)| ==> Filter(s, p)[i] in s
    ensures forall i :: 0 <= i < |s| && p(s[i]) ==> s[i] in Filter(s, p)
  {
    if |s| > 0 {
      FilterMembers(s[1..], p);
      var head := if p(s[0]) then [s[0]] else [];
      assert Filter(s, p) == head + Filter(s[1..], p);
      forall i | 0 <= i < |s| && p(s[i]) ensures s[i] in Filter(s, p) {
        if i > 0 { assert s[i] == s[1..][i - 1]; }
      }
    }
  }

  /** A permutation of elements that satisfy `p` satisfies `p`: sorting a
      filtered list keeps it filtered. */
  lemma PermutationKeeps<T>(s: seq<T>, t: seq<T>, p: T -> bool)
    requires multiset(t) == multiset(s) && forall i :: 0 <= i < |s| ==> p(s[i])
    ensures forall i :: 0 <= i < |t| ==> p(t[i])
  {
    forall i | 0 <= i < |t| ensures p(t[i]) {
      assert t[i] in multiset(s);
      var j :| 0 <= j < |s| && s[j] == t[i];
    }
  }

  lemma {:induction false} FilterAppend<T>(a: seq<T>, b: seq<T>, p: T -> bool)
    ensures Filter(a + b, p) == Filter(a, p) + Filter(b, p)
  {
    if |a| == 0 {
      assert a + b == b;
    } else {
      assert (a + b)[1..] == a[1..] + b;
      FilterAppend(a[1..], b, p);
    }
  }

  /** A filter every element passes keeps the whole sequence. */
  lemma {:induction false} FilterAll<T>(s: seq<T>, p: T -> bool)
    requires forall i :: 0 <= i < |s| ==> p(s[i])
    ensures Filter(s, p) == s
  {
    if |s| > 0 {
      FilterAll(s[1..], p);
      assert [s[0]] + s[1..] == s;
    }
  }

  /** A filter no element passes keeps nothing. */
  lemma {:induction false} FilterNone<T>(s: seq<T>, p: T -> bool)
    requires forall i :: 0 <= i < |s| ==> !p(s[i])
    ensures Filter(s, p) == []
  {
    if |s| > 0 { FilterNone(s[1..], p); }
  }

  /** Σ f(x) over the sequence, accumulated left to right as a `reduce` does. */
  function SumOf<T>(s: seq<T>, f: T -> int): int
  {
    if |s| == 0 then 0 else SumOf(s[..|s| - 1], f) + f(s[|s| - 1])
  }

  lemma {:induction false} SumOfAppend<T>(a: seq<T>, b: seq<T>, f: T -> int)
    ensures SumOf(a + b, f) == SumOf(a, f) + SumOf(b, f)
  {
    if |b| == 0 {
      assert a + b == a;
    } else {
      assert (a + b)[..|a + b| - 1] == a + b[..|b| - 1];
      SumOfAppend(a, b[..|b| - 1], f);
    }
  }

  /** Summing from the front gives the same total as the left-to-right fold. */
  lemma {:induction false} SumOfCons<T>(x: T, s: seq<T>, f: T -> int)
    ensures SumOf([x] + s, f) == f(x) + SumOf(s, f)
  {
    SumOfAppend([x], s, f);
    assert [x][..0] == [];
  }

  /** Replacing one element changes the sum by the difference of its values. */
  lemma {:induction false} SumOfUpdate<T>(s: seq<T>, i: nat, x: T, f: T -> int)
    requires i < |s|
    ensures SumOf(s[i := x], f) == SumOf(s, f) - f(s[i]) + f(x)
  {
    var n := |s|;
    if i < n - 1 {
      assert s[i := x][..n - 1] == s[..n - 1][i := x];
      SumOfUpdate(s[..n - 1], i, x, f);
    } else {
      assert s[i := x][..n - 1] == s[..n - 1];
    }
  }

  lemma SumOfPair<T>(a: T, b: T, f: T -> int)
    ensures SumOf([a, b], f) == f(a) + f(b)
  {
    assert [a, b][..1] == [a];
    assert [a][..0] == [];
    assert SumOf([a], f) == f(a);
  }

  /** Σ over the elements satisfying `p` equals Σ over all elements of the
      function that is 0 off `p`. */
  lemma {:induction false} SumOfFilter<T>(s: seq<T>, p: T -> bool, f: T -> int, g: T -> int)
    requires forall x :: g(x) == if p(x) then f(x) else 0
    ensures SumOf(Filter(s, p), f) == SumOf(s, g)
  {
    if |s| > 0 {
      SumOfFilter(s[1..], p, f, g);
      assert s == [s[0]] + s[1..];
      SumOfCons(s[0], s[1..], g);
      var head := if p(s[0]) then [s[0]] else [];
      SumOfAppend(head, Filter(s[1..], p), f);
      if p(s[0]) { SumOfCons(s[0], [], f); assert [s[0]] + [] == [s[0]]; }
    }
  }

  function Min(a: int, b: int): int { if a <= b then a else b }

  /** `pages` pages of `limit` items hold `total` items, and one page fewer
      would not: `pages` is ⌈total / limit⌉. */
  predicate PageCount(pages: nat, total: nat, limit: Pos)
  {
    pages * limit >= total && (pages == 0 || (pages - 1) * limit < total)
  }

  /** ⌈n / d⌉, the `Math.ceil(totalRecords / limit)` of every list endpoint. */
  function CeilDiv(n: nat, d: Pos): (r: nat)
    ensures PageCount(r, n, d)
  {
    var q := (n + d - 1) / d;
    assert q * d <= n + d - 1 < (q + 1) * d;
    q
  }

  /** `.skip((page - 1) * limit).limit(limit)`: the `limit` elements that
      follow the first `(page - 1) * limit`. */
  function Paginate<T>(s: seq<T>, page: Pos, limit: Pos): (r: seq<T>)
    ensures |r| <= limit
    ensures IsPage(r, s, page, limit)
    ensures Skipped(page, limit) + limit <= |s| ==> |r| == limit
    ensures Skipped(page, limit) >= |s| ==> r == []
  {
    var skip := Skipped(page, limit);
    if skip >= |s| then [] else s[skip..skip + Min(limit, |s| - skip)]
  }

  /** How many of `n` elements page `page` holds: `limit`, fewer on the
      last page, none past it. */
  function PageLength(n: nat, page: Pos, limit: Pos): nat
  {
    if Skipped(page, limit) >= n then 0 else Min(limit, n - Skipped(page, limit))
  }

  /** `items` is page `page` of `s`: exactly `PageLength` elements, the
      ones that follow the first `(page - 1) * limit` in order. */
  ghost predicate IsPage<T>(items: seq<T>, s: seq<T>, page: Pos, limit: Pos)
  {
    && |items| == PageLength(|s|, page, limit)
    && forall k :: 0 <= k < |items| ==> Skipped(page, limit) + k < |s| && items[k] == s[Skipped(page, limit) + k]
  }

  /** No element is skipped by the listing: on page i / limit + 1 the
      i-th element is at position i % limit. */
  lemma OnPage<T>(items: seq<T>, s: seq<T>, i: nat, page: Pos, limit: Pos)
    requires i < |s| && page == i / limit + 1 && IsPage(items, s, page, limit)
    ensures i % limit < |items| && items[i % limit] == s[i]
  {
    var q, m := i / limit, i % limit;
    assert i == q * limit + m && m < limit;
    assert Skipped(page, limit) == q * limit;
    assert Skipped(page, limit) + m == i;
  }

  /** A page of a sorted sequence of elements satisfying `p` is sorted and
      its elements satisfy `p`. */
  lemma SortedPageOf<T>(s: seq<T>, key: T -> int, p: T -> bool, page: Pos, limit: Pos)
    requires SortedDesc(s, key) && forall i :: 0 <= i < |s| ==> p(s[i])
    ensures SortedDesc(Paginate(s, page, limit), key)
    ensures forall k :: 0 <= k < |Paginate(s, page, limit)| ==> p(Paginate(s, page, limit)[k])
  {
    var e := Paginate(s, page, limit);
    var skip := Skipped(page, limit);
    forall k | 0 <= k < |e| ensures p(e[k]) {
      assert e[k] == s[skip + k];
    }
    forall i, j | 0 <= i < j < |e| ensures key(e[i]) >= key(e[j]) {
      assert e[i] == s[skip + i] && e[j] == s[skip + j];
    }
  }

  function Skipped(page: Pos, limit: Pos): nat
  {
    (page - 1) * limit
  }

  /** Every element's key is at least that of every later element. */
  ghost predicate SortedDesc<T>(s: seq<T>, key: T -> int)
  {
    forall i, j :: 0 <= i < j < |s| ==> key(s[i]) >= key(s[j])
  }

  function InsertDesc<T>(x: T, s: seq<T>, key: T -> int): (r: seq<T>)
    ensures multiset(r) == multiset(s) + multiset{x}
    ensures |r| == |s| + 1
  {
    if |s| == 0 then [x]
    else if key(x) >= key(s[0]) then [x] + s
    else
      assert s == [s[0]] + s[1..];
      [s[0]] + InsertDesc(x, s[1..], key)
  }

  lemma {:induction false} InsertDescSorted<T>(x: T, s: seq<T>, key: T -> int)
    requires SortedDesc(s, key)
    ensures SortedDesc(InsertDesc(x, s, key), key)
  {
    if |s| > 0 && key(x) < key(s[0]) {
      var tail := s[1..];
      var t := InsertDesc(x, tail, key);
      InsertDescSorted(x, tail, key);
      assert forall k :: 0 <= k < |tail| ==> key(tail[k]) <= key(s[0]) by {
        forall k | 0 <= k < |tail| ensures key(tail[k]) <= key(s[0]) { assert tail[k] == s[k + 1]; }
      }
      InsertDescBounded(x, tail, key, key(s[0]));
      var r := [s[0]] + t;
      assert InsertDesc(x, s, key) == r;
      forall i, j | 0 <= i < j < |r| ensures key(r[i]) >= key(r[j]) {
        assert r[j] == t[j - 1];
        if i > 0 { assert r[i] == t[i - 1]; }
      }
    }
  }

  /** Inserting an element no greater than a bound into elements no greater
      than it keeps every element no greater than it. */
  lemma {:induction false} InsertDescBounded<T>(x: T, s: seq<T>, key: T -> int, b: int)
    requires key(x) <= b && forall k :: 0 <= k < |s| ==> key(s[k]) <= b
    ensures forall k :: 0 <= k < |InsertDesc(x, s, key)| ==> key(InsertDesc(x, s, key)[k]) <= b
  {
    if |s| > 0 && key(x) < key(s[0]) {
      var tail := s[1..];
      assert forall k :: 0 <= k < |tail| ==> key(tail[k]) <= b by {
        forall k | 0 <= k < |tail| ensures key(tail[k]) <= b { assert tail[k] == s[k + 1]; }
      }
      InsertDescBounded(x, tail, key, b);
      var t := InsertDesc(x, tail, key);
      var r := [s[0]] + t;
      assert InsertDesc(x, s, key) == r;
      forall k | 0 <= k < |r| ensures key(r[k]) <= b {
        if k > 0 { assert r[k] == t[k - 1]; }
      }
    } else if |s| > 0 {
      var r := [x] + s;
      assert InsertDesc(x, s, key) == r;
      forall k | 0 <= k < |r| ensures key(r[k]) <= b {
        if k > 0 { assert r[k] == s[k - 1]; }
      }
    }
  }

  /** A prefix of a descending sequence is descending and a sub-multiset
      of it. */
  lemma DescPrefix<T>(s: seq<T>, key: T -> int, n: nat)
    requires SortedDesc(s, key) && n <= |s|
    ensures SortedDesc(s[..n], key)
    ensures multiset(s[..n]) <= multiset(s)
  {
    assert s == s[..n] + s[n..];
    assert multiset(s) == multiset(s[..n]) + multiset(s[n..]);
  }

  /** A descending sort by `key`: the `.sort({ key: -1 })` of a query. Equal
      keys keep their stored order. */
  function SortDesc<T>(s: seq<T>, key: T -> int): (r: seq<T>)
    ensures multiset(r) == multiset(s)
    ensures |r| == |s|
  {
    if |s| == 0 then []
    else
      assert s == [s[0]] + s[1..];
      InsertDesc(s[0], SortDesc(s[1..], key), key)
  }

  lemma {:induction false} SortDescSorted<T>(s: seq<T>, key: T -> int)
    ensures SortedDesc(SortDesc(s, key), key)
  {
    if |s| > 0 {
      SortDescSorted(s[1..], key);
      InsertDescSorted(s[0], SortDesc(s[1..], key), key);
    }
  }
}
