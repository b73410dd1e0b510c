/**
 What the store's `orderBy("hitFactor", "desc")` scan promises: every score
 document of the collection exactly once, hit factors non-increasing, ties in
 no particular order.

 A collection is a map from document id to entry; `Bag` is the multiset of
 its values, so "a permutation of the stored documents" is
 `multiset(listing) == Bag(collection)`.
 */
module Ordering {
  import opened Types

  /** Hit factors never increase along `s`. */
  predicate SortedByHitFactor(s: seq<LeaderboardEntry>)
  {
    forall i, j :: 0 <= i < j < |s| ==> s[i].hitFactor >= s[j].hitFactor
  }

  /** The multiset of values of a document collection (one per document id). */
  ghost function Bag(m: map<string, LeaderboardEntry>): multiset<LeaderboardEntry>
    decreases |m|
  {
    if |m| == 0 then multiset{}
    else
      var k :| k in m;
      assert (m - {k}).Keys == m.Keys - {k};
      multiset{m[k]} + Bag(m - {k})
  }

  /** A listing of `m` as the ordered scan returns it. */
  ghost predicate IsOrderedListing(list: seq<LeaderboardEntry>, m: map<string, LeaderboardEntry>)
  {
    SortedByHitFactor(list) && multiset(list) == Bag(m)
  }

  /** Unfolds `Bag` once, naming the document it takes out first. */
  lemma BagPick(m: map<string, LeaderboardEntry>) returns (j: string)
    requires |m| != 0
    ensures j in m && Bag(m) == multiset{m[j]} + Bag(m - {j})
  {
    j :| j in m && Bag(m) == multiset{m[j]} + Bag(m - {j});
  }

  /** Taking any document out of a collection takes its value out of the bag. */
  lemma {:induction false} BagRemove(m: map<string, LeaderboardEntry>, k: string)
    requires k in m
    ensures Bag(m) == multiset{m[k]} + Bag(m - {k})
    decreases |m|
  {
    RemoveSize(m, k);
    var j := BagPick(m);
    if j != k {
      var mj, mk := m - {j}, m - {k};
      RemoveSize(m, j);
      assert k in mj && mj[k] == m[k];
      assert j in mk && mk[j] == m[j];
      var both := mj - {k};
      assert both == mk - {j};
      BagRemove(mj, k);
      BagRemove(mk, j);
    }
  }

  lemma RemoveSize(m: map<string, LeaderboardEntry>, k: string)
    requires k in m
    ensures |m - {k}| == |m| - 1
  {
    assert (m - {k}).Keys == m.Keys - {k};
  }

  /** Writing a document under a fresh id adds exactly its value to the bag. */
  lemma BagAddFresh(m: map<string, LeaderboardEntry>, k: string, v: LeaderboardEntry)
    requires k !in m
    ensures Bag(m[k := v]) == Bag(m) + multiset{v}
  {
    BagRemove(m[k := v], k);
    assert m[k := v] - {k} == m;
  }

  /** The bag has one element per document. */
  lemma {:induction false} BagSize(m: map<string, LeaderboardEntry>)
    ensures |Bag(m)| == |m|
    decreases |m|
  {
    if |m| != 0 {
      var k :| k in m;
      BagRemove(m, k);
      RemoveSize(m, k);
      BagSize(m - {k});
    }
  }

  /** An entry whose hit factor is at least that of the head of a sorted list
      may go in front of it. */
  lemma SortedCons(x: LeaderboardEntry, t: seq<LeaderboardEntry>)
    requires SortedByHitFactor(t) && (t == [] || x.hitFactor >= t[0].hitFactor)
    ensures SortedByHitFactor([x] + t)
  {
    assert forall i :: 0 <= i < |t| ==> t[0].hitFactor >= t[i].hitFactor;
  }

  /** Places `e` in front of the first entry whose hit factor does not exceed its own. */
  function Insert(s: seq<LeaderboardEntry>, e: LeaderboardEntry): (r: seq<LeaderboardEntry>)
    requires SortedByHitFactor(s)
    ensures SortedByHitFactor(r)
    ensures multiset(r) == multiset(s) + multiset{e}
    ensures |r| == |s| + 1
    ensures r[0] == e || (s != [] && r[0] == s[0])
  {
    if s == [] then [e]
    else if e.hitFactor >= s[0].hitFactor then
      SortedCons(e, s);
      [e] + s
    else
      var rest := Insert(s[1..], e);
      assert s == [s[0]] + s[1..];
      SortedCons(s[0], rest);
      assert multiset([s[0]] + rest) == multiset{s[0]} + multiset(rest);
      [s[0]] + rest
  }

  /** An empty collection is listed as the empty sequence. */
  lemma EmptyListing(list: seq<LeaderboardEntry>)
    requires IsOrderedListing(list, map[])
    ensures list == []
  {
    assert |multiset(list)| == 0;
  }

  /** Hit factors strictly decrease along `s`. */
  predicate StrictlyDescending(s: seq<LeaderboardEntry>)
  {
    forall i, j :: 0 <= i < j < |s| ==> s[i].hitFactor > s[j].hitFactor
  }

  /** When no two hit factors tie, the ordered listing is unique: whatever
      order the scan uses for ties does not matter then. */
  lemma {:induction false} ListingUnique(a: seq<LeaderboardEntry>, b: seq<LeaderboardEntry>)
    requires StrictlyDescending(a) && SortedByHitFactor(b)
    requires multiset(a) == multiset(b)
    ensures a == b
  {
    if a != [] {
      assert a[0] in multiset(b);
      assert b[0] in multiset(a);
      HeadAgrees(a, b);
      var a', b' := a[1..], b[1..];
      assert a == [a[0]] + a';
      assert b == [b[0]] + b';
      calc {
        multiset(a');
        multiset(a) - multiset{a[0]};
        multiset(b) - multiset{b[0]};
        multiset(b');
      }
      ListingUnique(a', b');
    }
  }

  lemma HeadAgrees(a: seq<LeaderboardEntry>, b: seq<LeaderboardEntry>)
    requires StrictlyDescending(a) && SortedByHitFactor(b)
    requires a != [] && a[0] in b && b != [] && b[0] in a
    ensures a[0] == b[0] && StrictlyDescending(a[1..]) && SortedByHitFactor(b[1..])
  {
    var i :| 0 <= i < |b| && b[i] == a[0];
    var j :| 0 <= j < |a| && a[j] == b[0];
    assert b[0].hitFactor >= b[i].hitFactor;
  }
}
