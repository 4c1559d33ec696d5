/**
 * The `findMany({ where, orderBy })` queries of the Prisma client: select the rows
 * of a table (a map from id to row) that satisfy a filter, ordered by a key.
 * Row ids are naturals. Rows with equal keys come in an unspecified order, as in SQL.
 */
module Query {

  predicate Distinct<K(==)>(ks: seq<K>) {
    forall i, j :: 0 <= i < j < |ks| ==> ks[i] != ks[j]
  }

  /** The ids are rows of `m`, listed by non-increasing `key`. */
  predicate SortedBy<V>(ks: seq<nat>, m: map<nat, V>, key: V -> int) {
    (forall i :: 0 <= i < |ks| ==> ks[i] in m) &&
    (forall i, j :: 0 <= i < j < |ks| ==> key(m[ks[i]]) >= key(m[ks[j]]))
  }

  /** Puts `k` in front of the first id whose key is not larger. */
  function Insert<V>(k: nat, ks: seq<nat>, m: map<nat, V>, key: V -> int): seq<nat>
    requires k in m && forall i :: 0 <= i < |ks| ==> ks[i] in m
  {
    if ks == [] || key(m[k]) >= key(m[ks[0]]) then [k] + ks
    else [ks[0]] + Insert(k, ks[1..], m, key)
  }

  /** Inserting adds exactly `k` to the ids. */
  lemma {:induction false} InsertMembers<V>(k: nat, ks: seq<nat>, m: map<nat, V>, key: V -> int)
    requires k in m && forall i :: 0 <= i < |ks| ==> ks[i] in m
    ensures forall x :: x in Insert(k, ks, m, key) <==> x == k || x in ks
  {
    if ks != [] && key(m[k]) < key(m[ks[0]]) {
      InsertMembers(k, ks[1..], m, key);
      assert ks == [ks[0]] + ks[1..];
    }
  }

  /** A row in front of a sorted list with no larger key keeps it sorted. */
  lemma ConsSortedBy<V>(a: nat, r: seq<nat>, m: map<nat, V>, key: V -> int)
    requires a in m && SortedBy(r, m, key)
    requires forall i :: 0 <= i < |r| ==> key(m[a]) >= key(m[r[i]])
    ensures SortedBy([a] + r, m, key)
  {
    var ar := [a] + r;
    forall i, j | 0 <= i < j < |ar| ensures key(m[ar[i]]) >= key(m[ar[j]]) {
      assert ar[j] == r[j - 1];
      if i > 0 {
        assert ar[i] == r[i - 1];
      }
    }
  }

  /** A new id in front of distinct ids keeps them distinct. */
  lemma ConsDistinct(a: nat, r: seq<nat>)
    requires Distinct(r) && a !in r
    ensures Distinct([a] + r)
  {
    var ar := [a] + r;
    forall i, j | 0 <= i < j < |ar| ensures ar[i] != ar[j] {
      assert ar[j] == r[j - 1];
      if i > 0 {
        assert ar[i] == r[i - 1];
      }
    }
  }

  /** Inserting keeps the order, adds exactly `k`, and adds no duplicate. */
  lemma {:induction false} InsertSorted<V>(k: nat, ks: seq<nat>, m: map<nat, V>, key: V -> int)
    requires k in m && SortedBy(ks, m, key)
    ensures SortedBy(Insert(k, ks, m, key), m, key)
    ensures forall x :: x in Insert(k, ks, m, key) <==> x == k || x in ks
    ensures Distinct(ks) && k !in ks ==> Distinct(Insert(k, ks, m, key))
  {
    InsertMembers(k, ks, m, key);
    if ks == [] || key(m[k]) >= key(m[ks[0]]) {
      forall i | 0 <= i < |ks| ensures key(m[k]) >= key(m[ks[i]]) {
        assert key(m[ks[0]]) >= key(m[ks[i]]);
      }
      ConsSortedBy(k, ks, m, key);
      if Distinct(ks) && k !in ks {
        ConsDistinct(k, ks);
      }
    } else {
      var tail := ks[1..];
      var rest := Insert(k, tail, m, key);
      InsertSorted(k, tail, m, key);
      assert Insert(k, ks, m, key) == [ks[0]] + rest;
      forall i | 0 <= i < |rest| ensures key(m[ks[0]]) >= key(m[rest[i]]) {
        if rest[i] != k {
          assert rest[i] in tail;
          var j :| 0 <= j < |tail| && tail[j] == rest[i];
          assert ks[j + 1] == rest[i];
        }
      }
      ConsSortedBy(ks[0], rest, m, key);
      if Distinct(ks) && k !in ks {
        assert Distinct(tail);
        assert ks[0] !in tail by {
          forall j | 0 <= j < |tail| ensures tail[j] != ks[0] {
            assert tail[j] == ks[j + 1];
          }
        }
        ConsDistinct(ks[0], rest);
      }
    }
  }

  /**
   * `findMany({ where: p, orderBy: { key: 'desc' } })`: the ids of exactly the rows
   * satisfying `p`, each once, by non-increasing key.
   */
  method SelectSorted<V>(m: map<nat, V>, p: V -> bool, key: V -> int) returns (ks: seq<nat>)
    ensures Distinct(ks)
    ensures forall k :: k in ks <==> k in m && p(m[k])
    ensures SortedBy(ks, m, key)
  {
    ks := [];
    var rest := m.Keys;
    while rest != {}
      invariant rest <= m.Keys
      invariant Distinct(ks) && SortedBy(ks, m, key)
      invariant forall k :: k in ks <==> k in m && k !in rest && p(m[k])
      decreases |rest|
    {
      var k :| k in rest;
      rest := rest - {k};
      if p(m[k]) {
        InsertSorted(k, ks, m, key);
        ks := Insert(k, ks, m, key);
      }
    }
  }
}
