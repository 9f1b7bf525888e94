/**
 * Queries over a table held as a map from primary key to row: the `findOne({where})`
 * scan and the `find({where, order: {column: 'DESC'}})` filter-and-sort the services
 * issue against their repositories.
 */
module Tables {
  import opened Wrappers

  /** The ordering column of the row stored under k (0 for a key that has no row). */
  function RankOf<K, V>(m: map<K, V>, rank: V -> int, k: K): int {
    if k in m then rank(m[k]) else 0
  }

  /** Keys listed so that their rows' ordering column never increases. */
  ghost predicate SortedDesc<K, V>(s: seq<K>, m: map<K, V>, rank: V -> int) {
    forall i, j :: 0 <= i < j < |s| ==> RankOf(m, rank, s[i]) >= RankOf(m, rank, s[j])
  }

  /** The keys whose rows satisfy the filter. */
  ghost function Matching<K(!new), V>(m: map<K, V>, p: V -> bool): set<K> {
    set k | k in m && p(m[k])
  }

  /** Inserts k before the first key whose row ranks strictly lower. */
  function InsertDesc<K, V>(s: seq<K>, k: K, m: map<K, V>, rank: V -> int): (r: seq<K>)
    ensures |r| == |s| + 1
  {
    if s == [] || RankOf(m, rank, k) >= RankOf(m, rank, s[0]) then [k] + s
    else [s[0]] + InsertDesc(s[1..], k, m, rank)
  }

  /** Inserting adds exactly the one key. */
  lemma {:induction false} InsertDescElements<K, V>(s: seq<K>, k: K, m: map<K, V>, rank: V -> int)
    ensures multiset(InsertDesc(s, k, m, rank)) == multiset(s) + multiset{k}
  {
    if s != [] && RankOf(m, rank, k) < RankOf(m, rank, s[0]) {
      var tail := InsertDesc(s[1..], k, m, rank);
      InsertDescElements(s[1..], k, m, rank);
      assert InsertDesc(s, k, m, rank) == [s[0]] + tail;
      assert multiset([s[0]] + tail) == multiset([s[0]]) + multiset(tail);
      assert s == [s[0]] + s[1..];
      assert multiset(s) == multiset([s[0]]) + multiset(s[1..]);
    }
  }

  /** Inserting into a list sorted by descending rank keeps it sorted. */
  lemma {:induction false} InsertDescSorted<K, V>(s: seq<K>, k: K, m: map<K, V>, rank: V -> int)
    requires SortedDesc(s, m, rank)
    ensures SortedDesc(InsertDesc(s, k, m, rank), m, rank)
  {
    if s != [] && RankOf(m, rank, k) < RankOf(m, rank, s[0]) {
      var rest := s[1..];
      SortedTail(s, m, rank);
      InsertDescSorted(rest, k, m, rank);
      InsertDescBounded(rest, k, m, rank, RankOf(m, rank, s[0]));
      var tail := InsertDesc(rest, k, m, rank);
      var r := [s[0]] + tail;
      assert InsertDesc(s, k, m, rank) == r;
      forall i, j | 0 <= i < j < |r| ensures RankOf(m, rank, r[i]) >= RankOf(m, rank, r[j]) {
        assert r[j] == tail[j - 1];
        if i > 0 {
          assert r[i] == tail[i - 1];
        }
      }
    }
  }

  /** The tail of a sorted list is sorted and ranks no higher than its head. */
  lemma SortedTail<K, V>(s: seq<K>, m: map<K, V>, rank: V -> int)
    requires s != [] && SortedDesc(s, m, rank)
    ensures SortedDesc(s[1..], m, rank)
    ensures forall x | x in s[1..] :: RankOf(m, rank, x) <= RankOf(m, rank, s[0])
  {
    var rest := s[1..];
    forall i, j | 0 <= i < j < |rest| ensures RankOf(m, rank, rest[i]) >= RankOf(m, rank, rest[j]) {
      assert rest[i] == s[i + 1] && rest[j] == s[j + 1];
    }
    forall x | x in rest ensures RankOf(m, rank, x) <= RankOf(m, rank, s[0]) {
      var n :| 0 <= n < |rest| && rest[n] == x;
      assert s[n + 1] == x;
    }
  }

  /** A bound on the ranks of a list and of the inserted key bounds the ranks after insertion. */
  lemma {:induction false} InsertDescBounded<K, V>(s: seq<K>, k: K, m: map<K, V>, rank: V -> int, bound: int)
    requires forall x | x in s :: RankOf(m, rank, x) <= bound
    requires RankOf(m, rank, k) <= bound
    ensures forall x | x in InsertDesc(s, k, m, rank) :: RankOf(m, rank, x) <= bound
  {
    if s != [] && RankOf(m, rank, k) < RankOf(m, rank, s[0]) {
      assert forall x | x in s[1..] :: x in s;
      InsertDescBounded(s[1..], k, m, rank, bound);
      assert InsertDesc(s, k, m, rank) == [s[0]] + InsertDesc(s[1..], k, m, rank);
    }
  }

  /** A key whose row satisfies p, if there is one (a `findOne` on a non-key column). */
  method FindKey<K, V>(m: map<K, V>, p: V -> bool) returns (r: Option<K>)
    ensures r.Some? ==> r.value in m && p(m[r.value])
    ensures r.None? ==> forall k :: k in m ==> !p(m[k])
  {
    var todo := m.Keys;
    while todo != {}
      invariant todo <= m.Keys
      invariant forall k :: k in m && k !in todo ==> !p(m[k])
      decreases todo
    {
      var k :| k in todo;
      if p(m[k]) {
        return Some(k);
      }
      todo := todo - {k};
    }
    return None;
  }

  lemma MultisetOfSetAdd<K>(s: set<K>, k: K)
    requires k !in s
    ensures multiset(s + {k}) == multiset(s) + multiset{k}
  {
  }

  /** Every key whose row satisfies p, each once, ordered by rank descending. */
  method SelectDesc<K(!new), V>(m: map<K, V>, p: V -> bool, rank: V -> int) returns (r: seq<K>)
    ensures multiset(r) == multiset(Matching(m, p))
    ensures forall k :: k in r <==> k in m && p(m[k])
    ensures SortedDesc(r, m, rank)
  {
    var todo := m.Keys;
    ghost var sel: set<K> := {};
    r := [];
    while todo != {}
      invariant todo <= m.Keys
      invariant forall x :: x in sel <==> x in m && x !in todo && p(m[x])
      invariant multiset(r) == multiset(sel)
      invariant SortedDesc(r, m, rank)
      decreases todo
    {
      var k :| k in todo;
      if p(m[k]) {
        InsertDescElements(r, k, m, rank);
        InsertDescSorted(r, k, m, rank);
        MultisetOfSetAdd(sel, k);
        r := InsertDesc(r, k, m, rank);
        sel := sel + {k};
      }
      todo := todo - {k};
    }
    assert sel == Matching(m, p);
    forall k ensures k in r <==> k in m && p(m[k]) {
      assert k in r <==> k in multiset(r);
    }
  }

  /** A list holding every element of a set exactly once has that set's size. */
  lemma DistinctListSize<K>(r: seq<K>, s: set<K>)
    requires multiset(r) == multiset(s)
    ensures |r| == |s|
  {
    assert |multiset(r)| == |r|;
  }
}
