/** The list updaters of the two infinite-scroll pages
    (frontend/src/pages/PaymentOrders.jsx `setOrders`,
    frontend/src/pages/WebhookLogs.jsx `setLogs`): a fetched page replaces
    the list or is appended without the entries already shown, and a retried
    log replaces its old copy. Entries are compared by their `_id`, given here
    as `key`. */
module ListMerge {

  import Base
  import Paging

  /** The keys of a list, in order. */
  function Keys<T, K>(s: seq<T>, key: T -> K): (r: seq<K>)
    ensures |r| == |s| && forall k :: 0 <= k < |s| ==> r[k] == key(s[k])
  {
    seq(|s|, k requires 0 <= k < |s| => key(s[k]))
  }

  predicate DistinctKeys<T, K(==)>(s: seq<T>, key: T -> K)
  {
    forall i, j :: 0 <= i < j < |s| ==> key(s[i]) != key(s[j])
  }

  /** `fetched.filter(o => !prev.find(p => p._id === o._id))`. */
  function Unseen<T, K(==)>(fetched: seq<T>, prev: seq<T>, key: T -> K): (r: seq<T>)
    ensures forall x :: x in r ==> x in fetched && key(x) !in Keys(prev, key)
    ensures forall x :: x in fetched && key(x) !in Keys(prev, key) ==> x in r
    ensures |r| <= |fetched|
  {
    if fetched == [] then []
    else (if key(fetched[0]) in Keys(prev, key) then [] else [fetched[0]]) + Unseen(fetched[1..], prev, key)
  }

  /** The `setOrders` / `setLogs` updater after page `pageNum` was fetched. */
  function MergePage<T, K(==)>(prev: seq<T>, fetched: seq<T>, key: T -> K, pageNum: int, replace: bool): (r: seq<T>)
    ensures replace || pageNum == 1 ==> r == fetched
    ensures !(replace || pageNum == 1) ==> r == prev + Unseen(fetched, prev, key)
  {
    if replace || pageNum == 1 then fetched else prev + Unseen(fetched, prev, key)
  }

  /** An appended page keeps the previous list as a prefix, shows every
      fetched entry, and adds only entries whose key is new. */
  lemma AppendKeepsPrefix<T, K>(prev: seq<T>, fetched: seq<T>, key: T -> K, pageNum: int)
    requires pageNum != 1
    ensures var r := MergePage(prev, fetched, key, pageNum, false);
      && |prev| <= |r| && r[..|prev|] == prev
      && (forall x :: x in fetched ==> key(x) in Keys(r, key))
      && (forall k :: |prev| <= k < |r| ==> key(r[k]) !in Keys(prev, key))
  {
    var r := MergePage(prev, fetched, key, pageNum, false);
    var u := Unseen(fetched, prev, key);
    assert r == prev + u;
    forall x | x in fetched
      ensures key(x) in Keys(r, key)
    {
      if key(x) in Keys(prev, key) {
        var k :| 0 <= k < |prev| && Keys(prev, key)[k] == key(x);
        assert r[k] == prev[k];
      } else {
        assert x in u;
        var k :| 0 <= k < |u| && u[k] == x;
        assert r[|prev| + k] == x;
      }
    }
    forall k | |prev| <= k < |r|
      ensures key(r[k]) !in Keys(prev, key)
    {
      assert r[k] == u[k - |prev|];
      assert r[k] in u;
    }
  }

  /** When the shown list and the fetched page each have distinct keys, so
      does the merged list. */
  lemma {:induction false} MergeKeepsDistinct<T, K>(prev: seq<T>, fetched: seq<T>, key: T -> K, pageNum: int, replace: bool)
    requires DistinctKeys(prev, key) && DistinctKeys(fetched, key)
    ensures DistinctKeys(MergePage(prev, fetched, key, pageNum, replace), key)
  {
    if !(replace || pageNum == 1) {
      var u := Unseen(fetched, prev, key);
      UnseenDistinct(fetched, prev, key);
      var r := prev + u;
      forall i, j | 0 <= i < j < |r|
        ensures key(r[i]) != key(r[j])
      {
        if i < |prev| && j >= |prev| {
          assert r[j] == u[j - |prev|] && r[j] in u;
          assert Keys(prev, key)[i] == key(r[i]);
        } else if i >= |prev| {
          assert r[i] == u[i - |prev|] && r[j] == u[j - |prev|];
        }
      }
    }
  }

  lemma {:induction false} UnseenDistinct<T, K>(fetched: seq<T>, prev: seq<T>, key: T -> K)
    requires DistinctKeys(fetched, key)
    ensures DistinctKeys(Unseen(fetched, prev, key), key)
  {
    if fetched != [] {
      DistinctTail(fetched, key);
      UnseenDistinct(fetched[1..], prev, key);
      var rest := Unseen(fetched[1..], prev, key);
      if key(fetched[0]) !in Keys(prev, key) {
        DistinctCons(fetched[0], rest, key);
      } else {
        assert Unseen(fetched, prev, key) == rest;
      }
    }
  }

  /** The tail of a list with distinct keys has distinct keys, none equal
      to the head's. */
  lemma DistinctTail<T, K>(s: seq<T>, key: T -> K)
    requires s != [] && DistinctKeys(s, key)
    ensures DistinctKeys(s[1..], key)
    ensures forall y :: y in s[1..] ==> key(y) != key(s[0])
  {
    var tail := s[1..];
    forall i, j | 0 <= i < j < |tail|
      ensures key(tail[i]) != key(tail[j])
    {
      assert tail[i] == s[i + 1] && tail[j] == s[j + 1];
    }
    forall y | y in tail
      ensures key(y) != key(s[0])
    {
      var m :| 0 <= m < |tail| && tail[m] == y;
      assert s[m + 1] == y;
    }
  }

  /** Putting in front an entry whose key the rest lacks keeps keys distinct. */
  lemma DistinctCons<T, K>(x: T, rest: seq<T>, key: T -> K)
    requires DistinctKeys(rest, key) && forall y :: y in rest ==> key(y) != key(x)
    ensures DistinctKeys([x] + rest, key)
  {
    var r := [x] + rest;
    forall i, j | 0 <= i < j < |r|
      ensures key(r[i]) != key(r[j])
    {
      assert r[j] == rest[j - 1];
      if i == 0 {
        assert r[j] in rest;
      } else {
        assert r[i] == rest[i - 1];
      }
    }
  }

  /** A page of entries that are all new is appended whole. */
  lemma {:induction false} UnseenAllNew<T, K>(fetched: seq<T>, prev: seq<T>, key: T -> K)
    requires forall x :: x in fetched ==> key(x) !in Keys(prev, key)
    ensures Unseen(fetched, prev, key) == fetched
  {
    if fetched != [] {
      assert fetched[0] in fetched;
      assert forall x :: x in fetched[1..] ==> x in fetched;
      UnseenAllNew(fetched[1..], prev, key);
      assert fetched == [fetched[0]] + fetched[1..];
    }
  }

  function Min(a: int, b: int): int
  {
    if a < b then a else b
  }

  /** The list after the initial load of page 1 and the scroll fetches of
      pages 2 to `n`, each taken from the same listing `items`. */
  function Scrolled<T, K(==)>(items: seq<T>, key: T -> K, limit: int, n: nat): seq<T>
    requires limit >= 1 && n >= 1
    decreases n
  {
    if n == 1 then MergePage([], Paging.PageOf(items, 1, limit), key, 1, true)
    else MergePage(Scrolled(items, key, limit, n - 1), Paging.PageOf(items, n, limit), key, n, false)
  }

  /** Page `n` is the slice of the listing between `(n - 1) * limit` and
      `n * limit`, both cut at its length. */
  lemma PageIsSlice<T>(items: seq<T>, limit: int, n: nat)
    requires limit >= 1 && n >= 1
    ensures Min((n - 1) * limit, |items|) <= Min(n * limit, |items|)
    ensures Paging.PageOf(items, n, limit) == items[Min((n - 1) * limit, |items|)..Min(n * limit, |items|)]
  {
    assert n * limit == (n - 1) * limit + limit;
    assert Paging.Skip(n, limit) == (n - 1) * limit;
  }

  /** Entries past position `m` have keys not shown among the first `m`. */
  lemma LaterKeysAreNew<T, K>(items: seq<T>, key: T -> K, m: nat, to: nat)
    requires m <= to <= |items| && DistinctKeys(items, key)
    ensures forall x :: x in items[m..to] ==> key(x) !in Keys(items[..m], key)
  {
    var prev := items[..m];
    forall x | x in items[m..to]
      ensures key(x) !in Keys(prev, key)
    {
      var j :| m <= j < to && items[j] == x;
      forall i | 0 <= i < m
        ensures Keys(prev, key)[i] != key(x)
      {
        assert Keys(prev, key)[i] == key(items[i]);
      }
    }
  }

  /** While the listing does not change and its keys are distinct,
      scrolling through `n` pages shows exactly its first `n * limit`
      entries, in order and each once. */
  lemma {:induction false} ScrollShowsPrefix<T, K>(items: seq<T>, key: T -> K, limit: int, n: nat)
    requires limit >= 1 && n >= 1 && DistinctKeys(items, key)
    ensures Scrolled(items, key, limit, n) == items[..Min(n * limit, |items|)]
    decreases n
  {
    PageIsSlice(items, limit, n);
    if n > 1 {
      ScrollShowsPrefix(items, key, limit, n - 1);
      ScrollStep(items, key, Min((n - 1) * limit, |items|), Min(n * limit, |items|), n);
    }
  }

  /** One scroll fetch: the shown prefix `items[..m]` followed by the new
      page `items[m..to]` is the prefix `items[..to]`. */
  lemma ScrollStep<T, K>(items: seq<T>, key: T -> K, m: nat, to: nat, n: int)
    requires m <= to <= |items| && DistinctKeys(items, key) && n != 1
    ensures MergePage(items[..m], items[m..to], key, n, false) == items[..to]
  {
    var prev, page := items[..m], items[m..to];
    LaterKeysAreNew(items, key, m, to);
    UnseenAllNew(page, prev, key);
    assert MergePage(prev, page, key, n, false) == prev + page;
    AdjacentSlices(items, m, to);
  }

  lemma AdjacentSlices<T>(items: seq<T>, m: nat, to: nat)
    requires m <= to <= |items|
    ensures items[..m] + items[m..to] == items[..to]
  {
  }

  /** Once the last page is loaded (`hasMore` false), every entry of the
      listing is shown. */
  lemma ScrollToEndShowsAll<T, K>(items: seq<T>, key: T -> K, limit: int, n: nat)
    requires limit >= 1 && n >= 1 && DistinctKeys(items, key)
    requires !HasMore(n, Paging.Pages(|items|, limit))
    ensures Scrolled(items, key, limit, n) == items
  {
    ScrollShowsPrefix(items, key, limit, n);
    Paging.MorePagesIff(|items|, limit, n);
  }

  /** What an infinite-scroll page shows once pages 1 to `page` of the
      listing `items` are loaded: its first `page * limit` entries, with
      `hasMore` set from that page's pagination. */
  predicate ShowsPages<T(==)>(shown: seq<T>, page: int, hasMore: bool, items: seq<T>, limit: int)
  {
    && page >= 1 && limit >= 1
    && shown == items[..Min(page * limit, |items|)]
    && hasMore == HasMore(page, Paging.Pages(|items|, limit))
  }

  /** The initial load (page 1, replacing) shows the first page, whatever
      was shown before. */
  lemma FirstPageShows<T, K>(prev: seq<T>, items: seq<T>, key: T -> K, limit: int)
    requires limit >= 1
    ensures ShowsPages(MergePage(prev, Paging.PageOf(items, 1, limit), key, 1, true), 1,
                       HasMore(1, Paging.Pages(|items|, limit)), items, limit)
  {
    PageIsSlice(items, limit, 1);
  }

  /** A scroll fetch of the next page extends what is shown by exactly that
      page, when the listing has distinct keys and has not changed. */
  lemma NextPageExtends<T, K>(shown: seq<T>, page: int, hasMore: bool, items: seq<T>, key: T -> K, limit: int)
    requires ShowsPages(shown, page, hasMore, items, limit) && DistinctKeys(items, key)
    ensures ShowsPages(MergePage(shown, Paging.PageOf(items, page + 1, limit), key, page + 1, false), page + 1,
                       HasMore(page + 1, Paging.Pages(|items|, limit)), items, limit)
  {
    PageIsSlice(items, limit, page + 1);
    assert (page + 1 - 1) * limit == page * limit;
    ScrollStep(items, key, Min(page * limit, |items|), Min((page + 1) * limit, |items|), page + 1);
  }

  /** Once `hasMore` is false the whole listing is shown. */
  lemma AtEndAllShown<T>(shown: seq<T>, page: int, items: seq<T>, limit: int)
    requires ShowsPages(shown, page, false, items, limit)
    ensures shown == items
  {
    Paging.MorePagesIff(|items|, limit, page);
  }

  /** Selecting entries keeps distinct keys distinct. */
  lemma {:induction false} FilterKeepsDistinct<T(!new), K>(s: seq<T>, p: T -> bool, key: T -> K)
    requires DistinctKeys(s, key)
    ensures DistinctKeys(Base.Filter(s, p), key)
  {
    if s != [] {
      var tail := s[1..];
      assert DistinctKeys(tail, key) by {
        forall i, j | 0 <= i < j < |tail|
          ensures key(tail[i]) != key(tail[j])
        {
          assert tail[i] == s[i + 1] && tail[j] == s[j + 1];
        }
      }
      FilterKeepsDistinct(tail, p, key);
      if p(s[0]) {
        var rest := Base.Filter(tail, p);
        var r := [s[0]] + rest;
        forall i, j | 0 <= i < j < |r|
          ensures key(r[i]) != key(r[j])
        {
          if i == 0 {
            assert r[j] == rest[j - 1] && r[j] in rest && r[j] in tail;
            var m :| 0 <= m < |tail| && tail[m] == r[j];
            assert s[m + 1] == r[j];
          } else {
            assert r[i] == rest[i - 1] && r[j] == rest[j - 1];
          }
        }
      }
    }
  }

  /** Reversing keeps distinct keys distinct. */
  lemma ReverseKeepsDistinct<T, K>(s: seq<T>, key: T -> K)
    requires DistinctKeys(s, key)
    ensures DistinctKeys(Base.Reverse(s), key)
  {
    var r := Base.Reverse(s);
    forall i, j | 0 <= i < j < |r|
      ensures key(r[i]) != key(r[j])
    {
      assert r[i] == s[|s| - 1 - i] && r[j] == s[|s| - 1 - j];
    }
  }

  /** `prev.map(l => l._id === updated._id ? updated : l)`. */
  function ReplaceByKey<T, K(==)>(prev: seq<T>, updated: T, key: T -> K): (r: seq<T>)
    ensures |r| == |prev|
    ensures forall k :: 0 <= k < |prev| ==> r[k] == if key(prev[k]) == key(updated) then updated else prev[k]
  {
    seq(|prev|, k requires 0 <= k < |prev| => if key(prev[k]) == key(updated) then updated else prev[k])
  }

  /** Replacing by key keeps the keys in place, so distinct keys stay
      distinct, and an entry with that key is then the updated one. */
  lemma ReplaceByKeyKeepsKeys<T, K>(prev: seq<T>, updated: T, key: T -> K)
    ensures Keys(ReplaceByKey(prev, updated, key), key) == Keys(prev, key)
    ensures DistinctKeys(prev, key) ==> DistinctKeys(ReplaceByKey(prev, updated, key), key)
    ensures key(updated) in Keys(prev, key) ==> updated in ReplaceByKey(prev, updated, key)
  {
    var r := ReplaceByKey(prev, updated, key);
    assert forall k :: 0 <= k < |prev| ==> key(r[k]) == key(prev[k]);
    if key(updated) in Keys(prev, key) {
      var k :| 0 <= k < |prev| && Keys(prev, key)[k] == key(updated);
      assert r[k] == updated;
    }
  }

  /** `setHasMore(data.pagination.page < data.pagination.pages)`. */
  predicate HasMore(page: int, pages: int)
  {
    page < pages
  }
}
