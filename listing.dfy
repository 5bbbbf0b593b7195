/** The list that `list_sessions` returns: summaries sorted by update time,
    most recent first (session_store.py:171-172), and the sum `get_stats` takes
    over it (session_store.py:239). */
module Listing {
  import opened Records

  /** Non-increasing in `lastUpdated`: most recently updated first. */
  predicate SortedByRecency(xs: seq<Summary>) {
    forall i, j :: 0 <= i < j < |xs| ==> xs[i].lastUpdated >= xs[j].lastUpdated
  }

  predicate Distinct(xs: seq<Summary>) {
    forall i, j :: 0 <= i < j < |xs| ==> xs[i] != xs[j]
  }

  /** A summary at least as recent as the head of a sorted list can go in
      front of it. */
  lemma SortedCons(y: Summary, xs: seq<Summary>)
    requires SortedByRecency(xs)
    requires xs == [] || y.lastUpdated >= xs[0].lastUpdated
    ensures SortedByRecency([y] + xs)
  {
    var r := [y] + xs;
    forall i, j | 0 <= i < j < |r| ensures r[i].lastUpdated >= r[j].lastUpdated {
      if i == 0 {
        assert r[j] == xs[j - 1];
        assert xs[0].lastUpdated >= xs[j - 1].lastUpdated || j == 1;
      } else {
        assert r[i] == xs[i - 1] && r[j] == xs[j - 1];
      }
    }
  }

  lemma SortedTail(xs: seq<Summary>)
    requires SortedByRecency(xs) && xs != []
    ensures SortedByRecency(xs[1..])
    ensures |xs| > 1 ==> xs[0].lastUpdated >= xs[1].lastUpdated
  {
    forall i, j | 0 <= i < j < |xs[1..]| ensures xs[1..][i].lastUpdated >= xs[1..][j].lastUpdated {
      assert xs[1..][i] == xs[i + 1] && xs[1..][j] == xs[j + 1];
    }
  }

  /** Puts `x` after every element at least as recent as it, so that equally
      recent summaries keep their order. */
  function Insert(xs: seq<Summary>, x: Summary): (r: seq<Summary>)
    ensures multiset(r) == multiset(xs) + multiset{x}
  {
    if xs == [] then [x]
    else if xs[0].lastUpdated >= x.lastUpdated then
      assert xs == [xs[0]] + xs[1..];
      [xs[0]] + Insert(xs[1..], x)
    else
      [x] + xs
  }

  /** Inserting into a sorted list keeps it sorted. */
  lemma {:induction false} InsertSorted(xs: seq<Summary>, x: Summary)
    requires SortedByRecency(xs)
    ensures SortedByRecency(Insert(xs, x))
    ensures Insert(xs, x)[0] == x || (xs != [] && Insert(xs, x)[0] == xs[0])
  {
    if xs == [] {
    } else if xs[0].lastUpdated >= x.lastUpdated {
      SortedTail(xs);
      InsertSorted(xs[1..], x);
      SortedCons(xs[0], Insert(xs[1..], x));
    } else {
      SortedCons(x, xs);
    }
  }

  /** `list.sort(key=lambda x: x["last_updated"], reverse=True)`: the result
      is a permutation of the input ordered most recent first. */
  method SortByRecency(xs: seq<Summary>) returns (ys: seq<Summary>)
    ensures SortedByRecency(ys)
    ensures multiset(ys) == multiset(xs)
  {
    ys := [];
    var i := 0;
    while i < |xs|
      invariant 0 <= i <= |xs|
      invariant SortedByRecency(ys)
      invariant multiset(ys) == multiset(xs[..i])
    {
      assert xs[..i + 1] == xs[..i] + [xs[i]];
      InsertSorted(ys, xs[i]);
      ys := Insert(ys, xs[i]);
      i := i + 1;
    }
    assert xs[..i] == xs;
  }

  /** In a sequence without repetitions every value occurs at most once. */
  lemma {:induction false} DistinctOccursOnce(xs: seq<Summary>, x: Summary)
    requires Distinct(xs)
    ensures multiset(xs)[x] <= 1
  {
    if xs != [] {
      assert xs == [xs[0]] + xs[1..];
      assert Distinct(xs[1..]) by {
        forall i, j | 0 <= i < j < |xs[1..]| ensures xs[1..][i] != xs[1..][j] {
          assert xs[1..][i] == xs[i + 1] && xs[1..][j] == xs[j + 1];
        }
      }
      DistinctOccursOnce(xs[1..], x);
      if xs[0] == x {
        assert x !in xs[1..] by {
          forall j | 0 <= j < |xs[1..]| ensures xs[1..][j] != x {
            assert xs[1..][j] == xs[j + 1];
          }
        }
      }
    }
  }

  /** Reordering keeps a sequence free of repetitions. */
  lemma DistinctPermutation(xs: seq<Summary>, ys: seq<Summary>)
    requires Distinct(xs) && multiset(xs) == multiset(ys)
    ensures Distinct(ys)
  {
    forall i, j | 0 <= i < j < |ys| ensures ys[i] != ys[j] {
      if ys[i] == ys[j] {
        var x := ys[i];
        assert ys == ys[..j] + [ys[j]] + ys[j + 1..];
        assert x in ys[..j];
        assert multiset(ys)[x] >= 2;
        DistinctOccursOnce(xs, x);
        assert false;
      }
    }
  }

  /** The records of `m` among `done` that the filter keeps. */
  ghost function MatchingIn(m: map<string, Session>, done: set<string>, userFilter: Option<string>): set<string> {
    set id | id in done && id in m && Matches(m[id], userFilter)
  }

  /** `found` holds one summary for each record of `m` among `done` that the
      filter keeps, and nothing else. */
  ghost predicate Collected(found: seq<Summary>, m: map<string, Session>, done: set<string>, userFilter: Option<string>) {
    && (forall x :: x in found ==>
          x.sessionId in done && x.sessionId in m && Matches(m[x.sessionId], userFilter) && x == Summarize(m[x.sessionId]))
    && (forall id :: id in done && id in m && Matches(m[id], userFilter) ==> Summarize(m[id]) in found)
    && Distinct(found)
    && |found| == |MatchingIn(m, done, userFilter)|
  }

  /** One turn of the scan in `list_sessions` on a record the filter keeps:
      its summary is appended. */
  lemma CollectKeep(found: seq<Summary>, m: map<string, Session>, done: set<string>, userFilter: Option<string>, id: string)
    requires Collected(found, m, done, userFilter)
    requires forall k :: k in m ==> m[k].sessionId == k
    requires id in m && id !in done && Matches(m[id], userFilter)
    ensures Collected(found + [Summarize(m[id])], m, done + {id}, userFilter)
  {
    var y := Summarize(m[id]);
    var next := found + [y];
    assert y !in found by {
      assert y.sessionId == id;
    }
    assert Distinct(next) by {
      forall i, j | 0 <= i < j < |next| ensures next[i] != next[j] {
        if j == |found| {
          assert next[i] == found[i] && found[i] in found;
        } else {
          assert next[i] == found[i] && next[j] == found[j];
        }
      }
    }
    assert MatchingIn(m, done + {id}, userFilter) == MatchingIn(m, done, userFilter) + {id};
    assert forall x :: x in next <==> x in found || x == y;
  }

  /** One turn of the scan in `list_sessions` on a record the filter drops:
      nothing is appended. */
  lemma CollectSkip(found: seq<Summary>, m: map<string, Session>, done: set<string>, userFilter: Option<string>, id: string)
    requires Collected(found, m, done, userFilter)
    requires id in m && id !in done && !Matches(m[id], userFilter)
    ensures Collected(found, m, done + {id}, userFilter)
  {
    assert MatchingIn(m, done + {id}, userFilter) == MatchingIn(m, done, userFilter);
  }

  /** Sorting a collected listing keeps it collected. */
  lemma CollectedPermutation(found: seq<Summary>, listed: seq<Summary>, m: map<string, Session>, done: set<string>, userFilter: Option<string>)
    requires Collected(found, m, done, userFilter)
    requires multiset(found) == multiset(listed)
    ensures Collected(listed, m, done, userFilter)
  {
    forall x | x in listed ensures x in found {
      assert x in multiset(listed);
    }
    forall x | x in found ensures x in listed {
      assert x in multiset(found);
    }
    DistinctPermutation(found, listed);
    assert |listed| == |multiset(listed)| == |multiset(found)| == |found|;
  }

  /** A complete collection over all of `m`, spelled out. */
  lemma CollectedAll(listed: seq<Summary>, m: map<string, Session>, done: set<string>, userFilter: Option<string>)
    requires done == m.Keys
    requires Collected(listed, m, done, userFilter)
    ensures forall x :: x in listed ==>
      x.sessionId in m && Matches(m[x.sessionId], userFilter) && x == Summarize(m[x.sessionId])
    ensures forall id :: id in m && Matches(m[id], userFilter) ==> Summarize(m[id]) in listed
    ensures Distinct(listed)
    ensures |listed| == |MatchingIds(m, userFilter)|
  {
    assert MatchingIn(m, done, userFilter) == MatchingIds(m, userFilter);
  }

  /** `sum(s["message_count"] for s in sessions)`. */
  function SumCounts(xs: seq<Summary>): nat {
    if xs == [] then 0 else xs[0].messageCount + SumCounts(xs[1..])
  }

  /** A listing with one summary per record of `m` adds up to the total of
      `m`'s message counts. */
  lemma {:induction false} SumCountsIsTotal(xs: seq<Summary>, m: map<string, Session>)
    requires Distinct(xs)
    requires forall id :: id in m ==> m[id].sessionId == id
    requires forall x :: x in xs ==> x.sessionId in m && x == Summarize(m[x.sessionId])
    requires forall id :: id in m ==> Summarize(m[id]) in xs
    ensures SumCounts(xs) == TotalMessages(m)
  {
    if xs != [] {
      var k := xs[0].sessionId;
      var rest := xs[1..];
      var m' := m - {k};
      assert Distinct(rest) by {
        forall i, j | 0 <= i < j < |rest| ensures rest[i] != rest[j] {
          assert rest[i] == xs[i + 1] && rest[j] == xs[j + 1];
        }
      }
      forall x | x in rest ensures x.sessionId in m' && x == Summarize(m'[x.sessionId]) {
        var j :| 0 <= j < |rest| && rest[j] == x;
        assert xs[j + 1] == x && xs[j + 1] != xs[0];
      }
      forall id | id in m' ensures Summarize(m'[id]) in rest {
        var y := Summarize(m[id]);
        assert y in xs && y.sessionId == id;
        assert y != xs[0];
      }
      SumCountsIsTotal(rest, m');
      TotalMessagesRemove(m, k);
    }
  }
}
