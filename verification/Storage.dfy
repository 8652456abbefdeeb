/** What the contracts use of their key-value store: ordered iteration, pages and raw keys. */
module Paging {
  /** `.skip(offset).take(limit)` */
  function Page<T>(s: seq<T>, offset: nat, limit: nat): seq<T> {
    if offset >= |s| then []
    else if limit >= |s| - offset then s[offset..]
    else s[offset..offset + limit]
  }

  function Reverse<T>(s: seq<T>): seq<T> {
    seq(|s|, i requires 0 <= i < |s| => s[|s| - 1 - i])
  }

  lemma PageEntries<T>(s: seq<T>, offset: nat, limit: nat)
    ensures |Page(s, offset, limit)| == if offset >= |s| then 0 else if limit < |s| - offset then limit else |s| - offset
    ensures forall i :: 0 <= i < |Page(s, offset, limit)| ==> Page(s, offset, limit)[i] == s[offset + i]
  {
  }

  lemma ReverseEntries<T>(s: seq<T>)
    ensures |Reverse(s)| == |s| && forall i :: 0 <= i < |s| ==> Reverse(s)[i] == s[|s| - 1 - i]
  {
  }

  /** What a client reads that keeps asking for the next page of `limit` items, starting at `offset`. */
  function Walk<T>(s: seq<T>, offset: nat, limit: nat): seq<T>
    requires limit > 0
    decreases |s| - offset
  {
    if offset >= |s| then [] else Page(s, offset, limit) + Walk(s, offset + limit, limit)
  }

  /** Consecutive pages tile the listing: no gaps, no repeats, whatever the page size. */
  lemma {:induction false} PagesTile<T>(s: seq<T>, offset: nat, limit: nat)
    requires limit > 0 && offset <= |s|
    ensures Walk(s, offset, limit) == s[offset..]
    decreases |s| - offset
  {
    if offset + limit < |s| {
      PagesTile(s, offset + limit, limit);
    }
  }
}

/** Iteration over a map keyed by (round, id) pairs, in the big-endian key order of the store. */
module KeyOrder {
  type Key = (nat, nat)

  predicate Less(a: Key, b: Key) {
    a.0 < b.0 || (a.0 == b.0 && a.1 < b.1)
  }

  ghost predicate Sorted(keys: seq<Key>) {
    forall i, j :: 0 <= i < j < |keys| ==> Less(keys[i], keys[j])
  }

  ghost predicate Lists(keys: seq<Key>, s: set<Key>) {
    forall k :: k in keys <==> k in s
  }

  lemma {:induction false} LeastExists(s: set<Key>)
    requires s != {}
    ensures exists k :: k in s && forall j :: j in s ==> j == k || Less(k, j)
  {
    var x :| x in s;
    if s == {x} {
      assert forall j :: j in s ==> j == x || Less(x, j);
    } else {
      LeastExists(s - {x});
      var y :| y in s - {x} && forall j :: j in s - {x} ==> j == y || Less(y, j);
      assert x.0 != y.0 || x.1 != y.1;
      var least := if Less(x, y) then x else y;
      forall j | j in s
        ensures j == least || Less(least, j)
      {
        assert j == x || j in s - {x};
      }
    }
  }

  /** The keys in ascending order. */
  function Ordered(s: set<Key>): (keys: seq<Key>)
    ensures Sorted(keys) && Lists(keys, s)
  {
    if s == {} then []
    else
      LeastExists(s);
      var k :| k in s && forall j :: j in s ==> j == k || Less(k, j);
      [k] + Ordered(s - {k})
  }

  /** A set has only one strictly ascending listing. */
  lemma {:induction false} SortedListingUnique(a: seq<Key>, b: seq<Key>, s: set<Key>)
    requires Sorted(a) && Sorted(b) && Lists(a, s) && Lists(b, s)
    ensures a == b
  {
    assert a != [] ==> a[0] in a;
    assert b != [] ==> b[0] in b;
    if a != [] && b != [] {
      SameHead(a, b, s);
      TailLists(a, s);
      TailLists(b, s);
      SortedListingUnique(a[1..], b[1..], s - {a[0]});
      assert a == [a[0]] + a[1..] && b == [b[0]] + b[1..];
    }
  }

  lemma SameHead(a: seq<Key>, b: seq<Key>, s: set<Key>)
    requires a != [] && b != [] && Sorted(a) && Sorted(b) && Lists(a, s) && Lists(b, s)
    ensures a[0] == b[0]
  {
    assert a[0] in b && b[0] in a;
    var i :| 0 <= i < |b| && b[i] == a[0];
    var j :| 0 <= j < |a| && a[j] == b[0];
  }

  lemma TailLists(a: seq<Key>, s: set<Key>)
    requires a != [] && Sorted(a) && Lists(a, s)
    ensures Sorted(a[1..]) && Lists(a[1..], s - {a[0]})
  {
    assert a == [a[0]] + a[1..];
    forall k
      ensures k in a[1..] <==> k in s - {a[0]}
    {
      if k in a[1..] {
        var i :| 0 <= i < |a[1..]| && a[1..][i] == k;
        assert a[i + 1] == k;
        assert k in a;
      }
      if k in s - {a[0]} {
        assert k in a;
      }
    }
  }
}

/** Iteration over a map keyed by numbers. */
module IdOrder {
  ghost predicate Ascending(p: seq<int>) {
    forall i, j :: 0 <= i < j < |p| ==> p[i] < p[j]
  }

  lemma {:induction false} AscendingPrefix(p: seq<int>, lo: int, hi: int, i: nat)
    requires Ascending(p) && i <= |p|
    requires forall x :: x in p <==> lo < x <= hi
    ensures forall j :: 0 <= j < i ==> p[j] == lo + j + 1
    decreases i
  {
    if i > 0 {
      AscendingPrefix(p, lo, hi, i - 1);
      assert p[i - 1] in p;
      assert i > 1 ==> p[i - 2] < p[i - 1];
      assert lo < lo + i <= hi;
      assert lo + i in p;
      var k :| 0 <= k < |p| && p[k] == lo + i;
    }
  }

  /** A strictly ascending listing of lo+1..hi is [lo+1, .., hi]. */
  lemma AscendingIsInterval(p: seq<int>, lo: int, hi: int)
    requires Ascending(p) && lo <= hi
    requires forall x :: x in p <==> lo < x <= hi
    ensures |p| == hi - lo && forall i :: 0 <= i < |p| ==> p[i] == lo + i + 1
  {
    AscendingPrefix(p, lo, hi, |p|);
    assert hi in p || hi == lo;
    assert p != [] ==> p[|p| - 1] in p;
  }

  lemma {:induction false} Least(s: set<nat>) returns (least: nat)
    requires s != {}
    ensures least in s && forall j :: j in s ==> least <= j
  {
    least :| least in s;
    if s != {least} {
      var rest := s - {least};
      var y := Least(rest);
      assert forall j :: j in s ==> j == least || j in rest;
      least := if least < y then least else y;
    }
  }

  lemma LeastExists(s: set<nat>)
    requires s != {}
    ensures exists k :: k in s && forall j :: j in s ==> k <= j
  {
    var least := Least(s);
  }

  lemma PrependLeast(s: set<nat>, k: nat, rest: seq<nat>)
    requires k in s && Ascending(rest)
    requires (forall j :: j in s ==> k <= j) && forall x :: x in rest <==> x in s - {k}
    ensures Ascending([k] + rest) && forall x :: x in [k] + rest <==> x in s
  {
    var all := [k] + rest;
    forall i, j | 0 <= i < j < |all|
      ensures all[i] < all[j]
    {
      assert all[j] == rest[j - 1] && rest[j - 1] in rest;
    }
  }

  /** The ids in ascending order. */
  function InOrder(s: set<nat>): (ids: seq<nat>)
    ensures Ascending(ids) && forall x :: x in ids <==> x in s
  {
    if s == {} then []
    else
      LeastExists(s);
      var k :| k in s && forall j :: j in s ==> k <= j;
      var rest := InOrder(s - {k});
      PrependLeast(s, k, rest);
      [k] + rest
  }
}

/** contracts/nois-gateway/src/drand_archive.rs: raw storage keys of archived rounds. */
module ArchiveKey {
  import opened Base

  function Pow256(k: nat): nat {
    if k == 0 then 1 else 256 * Pow256(k - 1)
  }

  function BigEndian(n: nat, k: nat): Bytes
    decreases k
  {
    if k == 0 then [] else BigEndian(n / 256, k - 1) + [n % 256]
  }

  function FromBigEndian(b: Bytes): nat {
    if b == [] then 0 else FromBigEndian(b[..|b| - 1]) * 256 + b[|b| - 1]
  }

  lemma {:induction false} BigEndianRoundTrip(n: nat, k: nat)
    requires n < Pow256(k)
    ensures |BigEndian(n, k)| == k
    ensures FromBigEndian(BigEndian(n, k)) == n
    decreases k
  {
    if k > 0 {
      BigEndianRoundTrip(n / 256, k - 1);
      var b := BigEndian(n, k);
      assert b[..|b| - 1] == BigEndian(n / 256, k - 1);
    }
  }

  /** The 11-byte key: BELL, 'd', 'm', then the round in big-endian order. */
  function DrandKey(round: U64): Bytes {
    [7, 100, 109] + BigEndian(round, 8)
  }

  /** A key is BELL, 'd', 'm' and the eight bytes of the round; different rounds never share an archive slot. */
  lemma DrandKeyInjective(a: U64, b: U64)
    ensures |DrandKey(a)| == 11 && DrandKey(a)[..3] == [7, 'd' as int, 'm' as int]
    ensures FromBigEndian(DrandKey(a)[3..]) == a
    ensures DrandKey(a) == DrandKey(b) <==> a == b
  {
    assert Pow256(8) == U64_MAX + 1 by {
      assert Pow256(4) == 0x1_0000_0000;
      assert Pow256(5) == 256 * Pow256(4);
      assert Pow256(6) == 256 * Pow256(5);
      assert Pow256(7) == 256 * Pow256(6);
      assert Pow256(8) == 256 * Pow256(7);
    }
    BigEndianRoundTrip(a, 8);
    BigEndianRoundTrip(b, 8);
    assert DrandKey(a)[3..] == BigEndian(a, 8);
    assert DrandKey(b)[3..] == BigEndian(b, 8);
  }
}
