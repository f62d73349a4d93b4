/**
 * The accumulated, ordered result set of the lookup table and the merge that
 * appends a fetched page to it while dropping records whose `accountid` is
 * already loaded.
 */
module ResultSet {
  import opened LookupTypes

  /** The identifiers of a list of records. */
  function Ids(rs: seq<Account>): set<string>
  {
    set r | r in rs :: r.accountid
  }

  /** No identifier occurs twice. */
  predicate DistinctIds(rs: seq<Account>)
  {
    forall i, j :: 0 <= i < j < |rs| ==> rs[i].accountid != rs[j].accountid
  }

  /** The records of `page` whose identifier is not in `seen`, in page order. */
  function Unseen(page: seq<Account>, seen: set<string>): (r: seq<Account>)
    ensures |r| <= |page|
    ensures forall a :: a in r <==> a in page && a.accountid !in seen
  {
    if page == [] then []
    else if page[0].accountid in seen then Unseen(page[1..], seen)
    else [page[0]] + Unseen(page[1..], seen)
  }

  /**
   * The merge applied for a pagination fetch: the previous rows, unchanged and
   * first, then the page rows whose identifier was not among them. Rows that
   * repeat an identifier within the page itself are all kept.
   */
  function Merge(prev: seq<Account>, page: seq<Account>): (m: seq<Account>)
    ensures |prev| <= |m| <= |prev| + |page|
    ensures m[..|prev|] == prev
    ensures forall a :: a in m <==> a in prev || (a in page && a.accountid !in Ids(prev))
    ensures m[|prev|..] == Unseen(page, Ids(prev))
  {
    prev + Unseen(page, Ids(prev))
  }

  /** One row is kept exactly when its identifier has not been seen. */
  lemma UnseenOne(x: Account, seen: set<string>)
    ensures Unseen([x], seen) == if x.accountid in seen then [] else [x]
  {
    assert [x][1..] == [];
  }

  /** The filter works row by row: filtering a concatenation is concatenating the filtered parts, so page order and in-page repeats are kept. */
  lemma {:induction false} UnseenAppend(x: seq<Account>, y: seq<Account>, seen: set<string>)
    ensures Unseen(x + y, seen) == Unseen(x, seen) + Unseen(y, seen)
  {
    if x == [] {
      assert x + y == y;
    } else {
      assert (x + y)[0] == x[0];
      assert (x + y)[1..] == x[1..] + y;
      UnseenAppend(x[1..], y, seen);
    }
  }

  /** After a merge every identifier of the previous rows and of the page is loaded, and no other. */
  lemma MergeIds(prev: seq<Account>, page: seq<Account>)
    ensures Ids(Merge(prev, page)) == Ids(prev) + Ids(page)
  {
  }

  lemma {:induction false} UnseenDistinct(page: seq<Account>, seen: set<string>)
    requires DistinctIds(page)
    ensures DistinctIds(Unseen(page, seen))
  {
    if page != [] {
      var rest := page[1..];
      assert DistinctIds(rest) by {
        forall i, j | 0 <= i < j < |rest| ensures rest[i].accountid != rest[j].accountid {
          assert rest[i] == page[i + 1] && rest[j] == page[j + 1];
        }
      }
      UnseenDistinct(rest, seen);
      if page[0].accountid !in seen {
        var u := Unseen(rest, seen);
        forall k | 0 <= k < |u| ensures u[k].accountid != page[0].accountid {
          assert u[k] in rest;
          var i :| 0 <= i < |rest| && rest[i] == u[k];
          assert page[i + 1] == u[k];
        }
      }
    }
  }

  /** If the loaded rows and the page each have distinct identifiers, so does the merge. */
  lemma MergeKeepsIdsDistinct(prev: seq<Account>, page: seq<Account>)
    requires DistinctIds(prev) && DistinctIds(page)
    ensures DistinctIds(Merge(prev, page))
  {
    var u := Unseen(page, Ids(prev));
    UnseenDistinct(page, Ids(prev));
    var m := prev + u;
    forall i, j | 0 <= i < j < |m| ensures m[i].accountid != m[j].accountid {
      if j >= |prev| && i < |prev| {
        assert m[j] == u[j - |prev|];
        assert m[i] in prev;
      } else if i >= |prev| {
        assert m[i] == u[i - |prev|] && m[j] == u[j - |prev|];
      }
    }
  }

  /** Merging the same page a second time adds nothing. */
  lemma MergeIdempotent(prev: seq<Account>, page: seq<Account>)
    ensures Merge(Merge(prev, page), page) == Merge(prev, page)
  {
    MergeIds(prev, page);
    UnseenAllSeen(page, Ids(Merge(prev, page)));
  }

  lemma {:induction false} UnseenAllSeen(page: seq<Account>, seen: set<string>)
    requires Ids(page) <= seen
    ensures Unseen(page, seen) == []
  {
    if page != [] {
      assert page[0].accountid in Ids(page);
      assert Ids(page[1..]) <= Ids(page) by {
        forall id | id in Ids(page[1..]) ensures id in Ids(page) {
          var a :| a in page[1..] && a.accountid == id;
          assert a in page;
        }
      }
      UnseenAllSeen(page[1..], seen);
    }
  }

  /** Merging into an empty result set keeps the page exactly, duplicates included. */
  lemma {:induction false} UnseenOfNothing(page: seq<Account>)
    ensures Unseen(page, {}) == page
  {
    if page != [] {
      UnseenOfNothing(page[1..]);
    }
  }

  lemma MergeIntoEmpty(page: seq<Account>)
    ensures Merge([], page) == page
  {
    assert Ids([]) == {};
    UnseenOfNothing(page);
  }

  lemma IdsCons(x: Account, rest: seq<Account>)
    ensures Ids([x] + rest) == {x.accountid} + Ids(rest)
  {
    var page := [x] + rest;
    forall id | id in Ids(page) ensures id in {x.accountid} + Ids(rest) {
      var a :| a in page && a.accountid == id;
      if a != x { assert a in rest; }
    }
    forall id | id in Ids(rest) ensures id in Ids(page) {
      var a :| a in rest && a.accountid == id;
      assert a in page;
    }
  }

  lemma DistinctTail(page: seq<Account>)
    requires page != [] && DistinctIds(page)
    ensures DistinctIds(page[1..]) && page[0].accountid !in Ids(page[1..])
  {
    var rest := page[1..];
    forall i, j | 0 <= i < j < |rest| ensures rest[i].accountid != rest[j].accountid {
      assert rest[i] == page[i + 1] && rest[j] == page[j + 1];
    }
  }

  lemma AddFreshElement(x: string, a: set<string>)
    requires x !in a
    ensures |{x} + a| == |a| + 1
  {
    assert {x} + a == a + {x};
  }

  /** For a page with distinct identifiers, exactly the already-seen ones are dropped. */
  lemma {:induction false} UnseenCount(page: seq<Account>, seen: set<string>)
    requires DistinctIds(page)
    ensures |Unseen(page, seen)| == |page| - |Ids(page) * seen|
  {
    if page == [] {
      assert Ids(page) == {};
    } else {
      var x, rest := page[0], page[1..];
      DistinctTail(page);
      UnseenCount(rest, seen);
      assert page == [x] + rest;
      IdsCons(x, rest);
      var common := Ids(rest) * seen;
      assert x.accountid !in common;
      if x.accountid in seen {
        assert Ids(page) * seen == {x.accountid} + common;
        AddFreshElement(x.accountid, common);
      } else {
        assert Ids(page) * seen == common;
      }
    }
  }

  /** The merged size: the previous rows plus the page minus the identifiers they share. */
  lemma MergeSize(prev: seq<Account>, page: seq<Account>)
    requires DistinctIds(page)
    ensures |Merge(prev, page)| == |prev| + |page| - |Ids(prev) * Ids(page)|
  {
    UnseenCount(page, Ids(prev));
    assert Ids(page) * Ids(prev) == Ids(prev) * Ids(page);
  }
}
