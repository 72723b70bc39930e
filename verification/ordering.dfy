/**
 * The list machinery the handlers get from the database and from
 * `Array.prototype`: filtering, `limit`, a stable sort on a descending key
 * (`.sort({ field: -1 })`, and `Array.prototype.sort` with a comparator of the
 * form `key(b) - key(a)`), `skip`/`limit` pagination and the rows of a table.
 */
module Ordering {
  import opened Wrappers

  /** The elements of `s` that satisfy `p`, in their original order. */
  function Filter<T>(s: seq<T>, p: T -> bool): (r: seq<T>)
    ensures |r| <= |s|
    ensures forall i :: 0 <= i < |r| ==> p(r[i])
  {
    if s == [] then []
    else (if p(s[0]) then [s[0]] else []) + Filter(s[1..], p)
  }

  /** An element is kept by `Filter` exactly when it is in `s` and satisfies `p`. */
  lemma {:induction false} FilterMember<T>(s: seq<T>, p: T -> bool, x: T)
    ensures x in Filter(s, p) <==> x in s && p(x)
  {
    if s != [] {
      FilterMember(s[1..], p, x);
      assert s == [s[0]] + s[1..];
    }
  }

  /** `Filter` keeps every occurrence of a kept element: it takes from `s`
      the sub-multiset of the elements satisfying `p`. */
  lemma {:induction false} FilterCount<T>(s: seq<T>, p: T -> bool, x: T)
    ensures multiset(Filter(s, p))[x] == if p(x) then multiset(s)[x] else 0
  {
    if s != [] {
      FilterCount(s[1..], p, x);
      assert s == [s[0]] + s[1..];
    }
  }

  /** Filtering with a predicate every element satisfies changes nothing. */
  lemma {:induction false} FilterAll<T>(s: seq<T>, p: T -> bool)
    requires forall i :: 0 <= i < |s| ==> p(s[i])
    ensures Filter(s, p) == s
  {
    if s != [] {
      FilterAll(s[1..], p);
    }
  }

  /** Filtering by two predicates in turn is filtering by their conjunction. */
  lemma {:induction false} FilterFilter<T>(s: seq<T>, p: T -> bool, q: T -> bool)
    ensures Filter(Filter(s, p), q) == Filter(s, x => p(x) && q(x))
  {
    if s != [] {
      FilterFilter(s[1..], p, q);
      var head := if p(s[0]) then [s[0]] else [];
      assert Filter(s, p) == head + Filter(s[1..], p);
      FilterAppend(head, Filter(s[1..], p), q);
    }
  }

  lemma {:induction false} FilterAppend<T>(a: seq<T>, b: seq<T>, p: T -> bool)
    ensures Filter(a + b, p) == Filter(a, p) + Filter(b, p)
  {
    if a != [] {
      assert (a + b)[1..] == a[1..] + b;
      FilterAppend(a[1..], b, p);
    } else {
      assert a + b == b;
    }
  }

  /** `rel` holds of every pair of elements taken in list order. */
  ghost predicate Pairwise<T>(s: seq<T>, rel: (T, T) -> bool) {
    forall i, j :: 0 <= i < j < |s| ==> rel(s[i], s[j])
  }

  /** Filtering keeps the relative order of the survivors, so every pairwise
      property of the list holds of the filtered list. */
  lemma {:induction false} FilterPairwise<T>(s: seq<T>, p: T -> bool, rel: (T, T) -> bool)
    requires Pairwise(s, rel)
    ensures Pairwise(Filter(s, p), rel)
  {
    if s != [] {
      FilterPairwise(s[1..], p, rel);
      var rest := Filter(s[1..], p);
      if p(s[0]) {
        forall j | 0 <= j < |rest|
          ensures rel(s[0], rest[j])
        {
          FilterMember(s[1..], p, rest[j]);
          var k :| 0 <= k < |s[1..]| && s[1..][k] == rest[j];
          assert s[k + 1] == rest[j];
        }
      }
    }
  }

  /** A prefix keeps every pairwise property. */
  lemma TakePairwise<T>(s: seq<T>, n: nat, rel: (T, T) -> bool)
    requires Pairwise(s, rel)
    ensures Pairwise(Take(s, n), rel)
  {
  }

  /** `.limit(n)` after a filter keeps the first `n` survivors: the result is
      every survivor of some prefix of `s`, and when that prefix is not all
      of `s` the result is full. */
  lemma {:induction false} TakeFilterPrefix<T>(s: seq<T>, p: T -> bool, n: nat) returns (k: nat)
    ensures k <= |s|
    ensures Take(Filter(s, p), n) == Filter(s[..k], p)
    ensures k < |s| ==> |Take(Filter(s, p), n)| == n
  {
    if |Filter(s, p)| <= n {
      k := |s|;
      assert s[..k] == s;
    } else if n == 0 {
      k := 0;
    } else {
      var rest := Filter(s[1..], p);
      var head := if p(s[0]) then [s[0]] else [];
      var m := if p(s[0]) then n - 1 else n;
      var k' := TakeFilterPrefix(s[1..], p, m);
      k := k' + 1;
      var pre := s[..k];
      assert pre[0] == s[0] && pre[1..] == s[1..][..k'];
      assert Filter(pre, p) == head + Filter(s[1..][..k'], p);
      assert Filter(s, p) == head + rest;
      TakeAppend(head, rest, n);
    }
  }

  /** `.limit(n)` of a short head followed by a tail. */
  lemma TakeAppend<T>(head: seq<T>, rest: seq<T>, n: nat)
    requires |head| <= 1 && |head| <= n && |head| + |rest| > n
    ensures Take(head + rest, n) == head + Take(rest, n - |head|)
  {
  }

  /** The index of the first element satisfying `p` (`Array.prototype.find`). */
  function FirstIndex<T>(s: seq<T>, p: T -> bool): (r: Option<nat>)
    ensures r.Some? ==> r.value < |s| && p(s[r.value])
    ensures r.Some? ==> forall k :: 0 <= k < r.value ==> !p(s[k])
    ensures r.None? ==> forall k :: 0 <= k < |s| ==> !p(s[k])
  {
    if s == [] then None
    else if p(s[0]) then Some(0)
    else
      var r := FirstIndex(s[1..], p);
      if r.None? then None else Some(r.value + 1)
  }

  /** The number of elements of `s` satisfying `p`. */
  function Count<T>(s: seq<T>, p: T -> bool): nat {
    |Filter(s, p)|
  }

  /** A weaker condition counts at least as many elements. */
  lemma {:induction false} CountWeaker<T>(s: seq<T>, p: T -> bool, q: T -> bool)
    requires forall x :: p(x) ==> q(x)
    ensures Count(s, p) <= Count(s, q)
  {
    if s != [] {
      CountWeaker(s[1..], p, q);
    }
  }

  /** `.limit(n)`: the first `n` elements, or all of them when there are fewer. */
  function Take<T>(s: seq<T>, n: nat): (r: seq<T>)
    ensures |r| == if |s| <= n then |s| else n
    ensures r == s[..|r|]
  {
    if |s| <= n then s else s[..n]
  }

  /** The keys of `s` do not increase from left to right. */
  ghost predicate Descending<T>(s: seq<T>, key: T -> real) {
    forall i, j :: 0 <= i < j < |s| ==> key(s[i]) >= key(s[j])
  }

  /** Inserts `x` after every element whose key is at least `x`'s. */
  function Insert<T>(x: T, s: seq<T>, key: T -> real): (r: seq<T>)
    ensures |r| == |s| + 1
    ensures multiset(r) == multiset(s) + multiset{x}
  {
    if s == [] then [x]
    else if key(s[0]) >= key(x) then
      assert s == [s[0]] + s[1..];
      [s[0]] + Insert(x, s[1..], key)
    else [x] + s
  }

  /** A stable sort by descending key: insertion sort that places each later
      element after the earlier ones with an equal key. */
  function SortDesc<T>(s: seq<T>, key: T -> real): (r: seq<T>)
    ensures |r| == |s|
    ensures multiset(r) == multiset(s)
  {
    if s == [] then []
    else
      var init := s[..|s| - 1];
      assert s == init + [s[|s| - 1]];
      Insert(s[|s| - 1], SortDesc(init, key), key)
  }

  lemma {:induction false} InsertMember<T>(x: T, s: seq<T>, key: T -> real, y: T)
    ensures y in Insert(x, s, key) <==> y == x || y in s
  {
    assert y in multiset(Insert(x, s, key)) <==> y in multiset(s) + multiset{x};
  }

  lemma {:induction false} InsertDescending<T>(x: T, s: seq<T>, key: T -> real)
    requires Descending(s, key)
    ensures Descending(Insert(x, s, key), key)
  {
    if s != [] && key(s[0]) >= key(x) {
      InsertDescending(x, s[1..], key);
      var r := Insert(x, s[1..], key);
      forall k | 0 <= k < |r|
        ensures key(s[0]) >= key(r[k])
      {
        InsertMember(x, s[1..], key, r[k]);
      }
    }
  }

  /** The sorted list has non-increasing keys. */
  lemma {:induction false} SortDescDescending<T>(s: seq<T>, key: T -> real)
    ensures Descending(SortDesc(s, key), key)
  {
    if s != [] {
      SortDescDescending(s[..|s| - 1], key);
      InsertDescending(s[|s| - 1], SortDesc(s[..|s| - 1], key), key);
    }
  }

  /** With all keys equal the sort keeps the original order (a comparator
      that always answers 0 leaves the array as it was). */
  lemma {:induction false} SortDescConstantKey<T>(s: seq<T>, key: T -> real, c: real)
    requires forall x :: key(x) == c
    ensures SortDesc(s, key) == s
  {
    if s != [] {
      SortDescConstantKey(s[..|s| - 1], key, c);
      InsertAtEnd(s[|s| - 1], s[..|s| - 1], key);
      assert s == s[..|s| - 1] + [s[|s| - 1]];
    }
  }

  /** An element whose key is at most every key in `s` goes last. */
  lemma {:induction false} InsertAtEnd<T>(x: T, s: seq<T>, key: T -> real)
    requires forall i :: 0 <= i < |s| ==> key(s[i]) >= key(x)
    ensures Insert(x, s, key) == s + [x]
  {
    if s != [] {
      assert key(s[0]) >= key(x);
      InsertAtEnd(x, s[1..], key);
      calc {
        Insert(x, s, key);
        [s[0]] + Insert(x, s[1..], key);
        [s[0]] + (s[1..] + [x]);
        { assert s == [s[0]] + s[1..]; }
        s + [x];
      }
    }
  }

  /** The elements whose key is `c`. */
  function KeyIs<T>(key: T -> real, c: real): T -> bool {
    x => key(x) == c
  }

  /** No element of a descending list has a key above that of its head. */
  lemma NoTiesAbove<T>(s: seq<T>, key: T -> real, c: real)
    requires Descending(s, key) && s != [] && key(s[0]) < c
    ensures Filter(s, KeyIs(key, c)) == []
  {
    var q := KeyIs(key, c);
    if Filter(s, q) != [] {
      var y := Filter(s, q)[0];
      FilterMember(s, q, y);
      assert false;
    }
  }

  /** Inserting into a descending list puts `x` after every element whose
      key equals its own. */
  lemma {:induction false} InsertTies<T>(x: T, s: seq<T>, key: T -> real, c: real)
    requires Descending(s, key)
    ensures Filter(Insert(x, s, key), KeyIs(key, c)) == Filter(s, KeyIs(key, c)) + Filter([x], KeyIs(key, c))
  {
    if s == [] {
      assert Insert(x, s, key) == [x];
    } else if key(s[0]) >= key(x) {
      InsertTies(x, s[1..], key, c);
      assert s == [s[0]] + s[1..];
      TiesBehindHead(s[0], s[1..], Insert(x, s[1..], key), Filter([x], KeyIs(key, c)), KeyIs(key, c));
    } else {
      TiesInFront(x, s, key, c);
    }
  }

  /** The step of `InsertTies` where `x` goes past the head `h`: putting
      the same element in front of both lists keeps their filters related. */
  lemma TiesBehindHead<T>(h: T, t: seq<T>, rest: seq<T>, last: seq<T>, q: T -> bool)
    requires Filter(rest, q) == Filter(t, q) + last
    ensures Filter([h] + rest, q) == Filter([h] + t, q) + last
  {
    var head := if q(h) then [h] else [];
    assert ([h] + rest)[1..] == rest;
    assert ([h] + t)[1..] == t;
    AppendAssoc(head, Filter(t, q), last);
  }

  /** Concatenation is associative. */
  lemma AppendAssoc<T>(a: seq<T>, b: seq<T>, c: seq<T>)
    ensures a + (b + c) == (a + b) + c
  {
  }

  /** The step of `InsertTies` where `x` goes in front of `s`. */
  lemma TiesInFront<T>(x: T, s: seq<T>, key: T -> real, c: real)
    requires Descending(s, key) && s != [] && key(s[0]) < key(x)
    ensures Filter(Insert(x, s, key), KeyIs(key, c)) == Filter(s, KeyIs(key, c)) + Filter([x], KeyIs(key, c))
  {
    var q := KeyIs(key, c);
    assert Insert(x, s, key) == [x] + s;
    FilterAppend([x], s, q);
    if key(x) == c {
      NoTiesAbove(s, key, c);
    }
  }

  /** The sort is stable: the elements with any one key come out in the
      order they went in. */
  lemma {:induction false} SortDescStable<T>(s: seq<T>, key: T -> real, c: real)
    ensures Filter(SortDesc(s, key), KeyIs(key, c)) == Filter(s, KeyIs(key, c))
  {
    if s != [] {
      var init, x := s[..|s| - 1], s[|s| - 1];
      SortDescStable(init, key, c);
      SortDescDescending(init, key);
      InsertTies(x, SortDesc(init, key), key, c);
      assert s == init + [x];
      FilterAppend(init, [x], KeyIs(key, c));
    }
  }

  /** `(page - 1) * limit`, the number of rows a page skips. */
  function Skip(page: nat, limit: nat): nat
    requires page >= 1
  {
    (page - 1) * limit
  }

  /** `.skip((page - 1) * limit).limit(limit)`: page `page` of `s`. */
  function Page<T>(s: seq<T>, page: nat, limit: nat): (r: seq<T>)
    requires page >= 1 && limit >= 1
    ensures |r| <= limit
    ensures forall i :: 0 <= i < |r| ==> Skip(page, limit) + i < |s| && r[i] == s[Skip(page, limit) + i]
  {
    var k := Skip(page, limit);
    if k >= |s| then [] else Take(s[k..], limit)
  }

  /** `Math.ceil(total / limit)`: the fewest pages of `limit` rows that hold `total` rows. */
  function PageCount(total: nat, limit: nat): (p: nat)
    requires limit >= 1
    ensures p * limit >= total
    ensures p == 0 || (p - 1) * limit < total
  {
    (total + limit - 1) / limit
  }

  /** The concatenation of pages 1 to `p`. */
  function FirstPages<T>(s: seq<T>, limit: nat, p: nat): seq<T>
    requires limit >= 1
  {
    if p == 0 then [] else FirstPages(s, limit, p - 1) + Page(s, p, limit)
  }

  function Min(a: nat, b: nat): nat {
    if a <= b then a else b
  }

  lemma SkipNext(page: nat, limit: nat)
    requires page >= 1
    ensures Skip(page, limit) == (page - 1) * limit && Skip(page, limit) + limit == page * limit
  {
  }

  lemma PageSlice<T>(s: seq<T>, page: nat, limit: nat)
    requires page >= 1 && limit >= 1
    ensures Page(s, page, limit) == s[Min(Skip(page, limit), |s|)..Min(Skip(page, limit) + limit, |s|)]
  {
  }

  lemma {:induction false} FirstPagesPrefix<T>(s: seq<T>, limit: nat, p: nat)
    requires limit >= 1
    ensures FirstPages(s, limit, p) == s[..Min(p * limit, |s|)]
  {
    if p > 0 {
      FirstPagesPrefix(s, limit, p - 1);
      SkipNext(p, limit);
      PageSlice(s, p, limit);
      PrefixStep(s, Min((p - 1) * limit, |s|), Min(p * limit, |s|));
    }
  }

  lemma PrefixStep<T>(s: seq<T>, lo: nat, hi: nat)
    requires lo <= hi <= |s|
    ensures s[..lo] + s[lo..hi] == s[..hi]
  {
  }

  /** Reading every page from 1 to `PageCount` returns every row exactly once, in order. */
  lemma PagesCoverAll<T>(s: seq<T>, limit: nat)
    requires limit >= 1
    ensures FirstPages(s, limit, PageCount(|s|, limit)) == s
  {
    var p := PageCount(|s|, limit);
    FirstPagesPrefix(s, limit, p);
    assert s[..|s|] == s;
  }

  /** A slice of a sequence sorted newest first is sorted the same way and
      holds some of its elements. */
  lemma SliceOfDescending<T>(s: seq<T>, key: T -> real, lo: nat, hi: nat)
    requires lo <= hi <= |s| && Descending(s, key)
    ensures Descending(s[lo..hi], key)
    ensures multiset(s[lo..hi]) <= multiset(s)
  {
    assert s == s[..lo] + s[lo..hi] + s[hi..];
  }

  /** A page of the rows sorted newest first. */
  lemma SortedPage<T>(matches: seq<T>, key: T -> real, page: nat, limit: nat)
    requires page >= 1 && limit >= 1
    ensures Descending(Page(SortDesc(matches, key), page, limit), key)
    ensures multiset(Page(SortDesc(matches, key), page, limit)) <= multiset(matches)
  {
    var sorted := SortDesc(matches, key);
    SortDescDescending(matches, key);
    PageSlice(sorted, page, limit);
    SliceOfDescending(sorted, key, Min(Skip(page, limit), |sorted|), Min(Skip(page, limit) + limit, |sorted|));
  }

  /** A paginated listing: one page of rows, the number of matching rows,
      the page number and the number of pages. */
  datatype Listing<T> = Listing(data: seq<T>, total: nat, page: nat, pages: nat)

  /** `find(query)` with a descending sort and `skip`/`limit` pagination,
      together with `countDocuments(query)`, over the rows of a collection. */
  function Query<T>(rows: seq<T>, p: T -> bool, key: T -> real, page: nat, limit: nat): (r: Listing<T>)
    requires page >= 1 && limit >= 1
    ensures |r.data| <= limit
    ensures forall x :: x in r.data ==> x in rows && p(x)
    ensures Descending(r.data, key)
    ensures r.total == Count(rows, p) && r.page == page
    ensures r.pages == PageCount(r.total, limit)
    ensures var sorted := SortDesc(Filter(rows, p), key);
      r.data == sorted[Min(Skip(page, limit), |sorted|)..Min(Skip(page, limit) + limit, |sorted|)]
  {
    var sorted := SortDesc(Filter(rows, p), key);
    SortedPage(Filter(rows, p), key, page, limit);
    PageSlice(sorted, page, limit);
    PageMembers(rows, p, key, page, limit);
    Listing(Page(sorted, page, limit), Count(rows, p), page, PageCount(Count(rows, p), limit))
  }

  /** Every row of a page of the matches is a row of the collection that matches. */
  lemma PageMembers<T>(rows: seq<T>, p: T -> bool, key: T -> real, page: nat, limit: nat)
    requires page >= 1 && limit >= 1
    ensures forall x :: x in Page(SortDesc(Filter(rows, p), key), page, limit) ==> x in rows && p(x)
  {
    var data := Page(SortDesc(Filter(rows, p), key), page, limit);
    SortedPage(Filter(rows, p), key, page, limit);
    forall x | x in data
      ensures x in rows && p(x)
    {
      assert x in multiset(data);
      FilterMember(rows, p, x);
    }
  }

  /** The rows of a table whose ids are below `n`, in id (insertion) order. */
  function Rows<T>(m: map<nat, T>, n: nat): (r: seq<T>)
    ensures |r| <= n
  {
    if n == 0 then []
    else Rows(m, n - 1) + (if n - 1 in m then [m[n - 1]] else [])
  }

  /** A row is listed exactly when some id below `n` holds it. */
  lemma {:induction false} RowsMember<T>(m: map<nat, T>, n: nat, x: T)
    ensures x in Rows(m, n) <==> exists k :: 0 <= k < n && k in m && m[k] == x
  {
    if n > 0 {
      RowsMember(m, n - 1, x);
      if n - 1 in m && m[n - 1] == x {
        assert x in Rows(m, n);
      }
    }
  }
}
