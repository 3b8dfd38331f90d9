/** The keys of a pandas `groupby`: every distinct key of the column, once,
    in ascending order of the key type. */
module GroupKeys {

  ghost predicate IsStrictTotalOrder<K(!new)>(lt: (K, K) -> bool)
  {
    && (forall a :: !lt(a, a))
    && (forall a, b, c :: lt(a, b) && lt(b, c) ==> lt(a, c))
    && (forall a, b :: a != b ==> lt(a, b) || lt(b, a))
  }

  ghost predicate StrictlyAscending<K>(ks: seq<K>, lt: (K, K) -> bool)
  {
    forall i, j :: 0 <= i < j < |ks| ==> lt(ks[i], ks[j])
  }

  predicate NoDuplicates<K(==)>(ks: seq<K>)
  {
    forall i, j :: 0 <= i < j < |ks| ==> ks[i] != ks[j]
  }

  /** Adds `k` to an ascending key list unless it is there already. */
  function InsertKey<K(==, !new)>(k: K, ks: seq<K>, lt: (K, K) -> bool): (r: seq<K>)
    ensures forall x :: x in r <==> x == k || x in ks
    ensures NoDuplicates(ks) ==> NoDuplicates(r)
  {
    if k in ks then ks else Place(k, ks, lt)
  }

  /** Puts a new key `k` before the first key it is less than. */
  function Place<K(==, !new)>(k: K, ks: seq<K>, lt: (K, K) -> bool): (r: seq<K>)
    ensures forall x :: x in r <==> x == k || x in ks
    ensures k !in ks && NoDuplicates(ks) ==> NoDuplicates(r)
  {
    if ks == [] || lt(k, ks[0]) then [k] + ks
    else
      var rest := Place(k, ks[1..], lt);
      assert forall x :: x in ks <==> x == ks[0] || x in ks[1..] by {
        assert ks == [ks[0]] + ks[1..];
      }
      assert NoDuplicates(ks) ==> NoDuplicates(ks[1..]) && ks[0] !in ks[1..] by {
        if NoDuplicates(ks) {
          forall m | 0 <= m < |ks[1..]| ensures ks[1..][m] != ks[0] {
            assert ks[m + 1] != ks[0];
          }
        }
      }
      [ks[0]] + rest
  }

  /** The group keys of a column: each value of `xs` exactly once. */
  function DistinctAscending<K(==, !new)>(xs: seq<K>, lt: (K, K) -> bool): (ks: seq<K>)
    ensures forall x :: x in ks <==> x in xs
    ensures NoDuplicates(ks)
    ensures |ks| <= |xs|
  {
    if xs == [] then []
    else
      var rest := DistinctAscending(xs[1..], lt);
      assert forall x :: x in xs <==> x == xs[0] || x in xs[1..] by {
        assert xs == [xs[0]] + xs[1..];
      }
      var r := InsertKey(xs[0], rest, lt);
      DistinctLength(r, xs);
      r
  }

  /** A duplicate-free list of values drawn from `xs` is no longer than `xs`. */
  lemma {:induction false} DistinctLength<K>(ks: seq<K>, xs: seq<K>)
    requires NoDuplicates(ks)
    requires forall x :: x in ks ==> x in xs
    ensures |ks| <= |xs|
  {
    if ks != [] {
      var k := ks[|ks| - 1];
      assert k in ks;
      var i :| 0 <= i < |xs| && xs[i] == k;
      var xs' := xs[..i] + xs[i + 1..];
      forall x | x in ks[..|ks| - 1] ensures x in xs' {
        var j :| 0 <= j < |ks| - 1 && ks[j] == x;
        assert x != k;
        assert x in ks;
        var m :| 0 <= m < |xs| && xs[m] == x;
        if m < i {
          assert xs'[m] == x;
        } else {
          assert xs'[m - 1] == x;
        }
      }
      DistinctLength(ks[..|ks| - 1], xs');
    }
  }

  lemma {:induction false} InsertKeyAscending<K(!new)>(k: K, ks: seq<K>, lt: (K, K) -> bool)
    requires IsStrictTotalOrder(lt)
    requires StrictlyAscending(ks, lt)
    ensures StrictlyAscending(InsertKey(k, ks, lt), lt)
  {
    if k !in ks {
      PlaceAscending(k, ks, lt);
    }
  }

  lemma {:induction false} PlaceAscending<K(!new)>(k: K, ks: seq<K>, lt: (K, K) -> bool)
    requires IsStrictTotalOrder(lt)
    requires StrictlyAscending(ks, lt)
    requires k !in ks
    ensures StrictlyAscending(Place(k, ks, lt), lt)
  {
    if ks != [] && !lt(k, ks[0]) {
      var rest := Place(k, ks[1..], lt);
      assert k != ks[0];
      PlaceAscending(k, ks[1..], lt);
      assert lt(ks[0], k);
      forall j | 0 <= j < |rest| ensures lt(ks[0], rest[j]) {
        assert rest[j] in rest;
        if rest[j] != k {
          assert rest[j] in ks[1..];
          var m :| 0 <= m < |ks[1..]| && ks[1..][m] == rest[j];
          assert ks[m + 1] == rest[j];
        }
      }
    }
  }

  /** An ascending list starts with its least member. */
  lemma LeastIsFirst<K(!new)>(a: seq<K>, x: K, lt: (K, K) -> bool)
    requires StrictlyAscending(a, lt)
    requires x in a
    ensures x == a[0] || lt(a[0], x)
  {
    var i :| 0 <= i < |a| && a[i] == x;
    if i > 0 {
      assert lt(a[0], a[i]);
    }
  }

  /** Under a strict total order the group keys come out ascending. */
  lemma {:induction false} DistinctAscendingSorted<K(!new)>(xs: seq<K>, lt: (K, K) -> bool)
    requires IsStrictTotalOrder(lt)
    ensures StrictlyAscending(DistinctAscending(xs, lt), lt)
  {
    if xs != [] {
      DistinctAscendingSorted(xs[1..], lt);
      InsertKeyAscending(xs[0], DistinctAscending(xs[1..], lt), lt);
    }
  }

  /** Membership and ascending order pin the key list down: any list with
      both properties is the group key list. */
  lemma {:induction false} AscendingUnique<K(!new)>(a: seq<K>, b: seq<K>, lt: (K, K) -> bool)
    requires IsStrictTotalOrder(lt)
    requires StrictlyAscending(a, lt) && StrictlyAscending(b, lt)
    requires forall x :: x in a <==> x in b
    ensures a == b
  {
    if a != [] {
      assert a[0] in b;
    }
    if b != [] {
      assert b[0] in a;
    }
    if a != [] && b != [] {
      LeastIsFirst(a, b[0], lt);
      LeastIsFirst(b, a[0], lt);
      assert a[0] == b[0];
      forall x ensures x in a[1..] <==> x in b[1..] {
        if x in a[1..] {
          var i :| 1 <= i < |a| && a[i] == x;
          assert lt(a[0], a[i]);
        }
        if x in b[1..] {
          var j :| 1 <= j < |b| && b[j] == x;
          assert lt(b[0], b[j]);
        }
        assert x in a <==> x == a[0] || x in a[1..] by { assert a == [a[0]] + a[1..]; }
        assert x in b <==> x == b[0] || x in b[1..] by { assert b == [b[0]] + b[1..]; }
      }
      AscendingUnique(a[1..], b[1..], lt);
      assert a == [a[0]] + a[1..] && b == [b[0]] + b[1..];
    }
  }

  // ------------------------------------------------------------ key orders

  /** Dates are day numbers, ordered as integers. */
  predicate DateLess(a: int, b: int)
  {
    a < b
  }

  lemma DateLessIsStrictTotalOrder()
    ensures IsStrictTotalOrder(DateLess)
  {
  }

  /** Station names compare as Python strings do: code point by code point,
      a proper prefix first. */
  predicate StationLess(a: string, b: string)
  {
    if a == [] then b != []
    else if b == [] then false
    else if a[0] != b[0] then a[0] < b[0]
    else StationLess(a[1..], b[1..])
  }

  lemma {:induction false} StationLessIrreflexive(a: string)
    ensures !StationLess(a, a)
  {
    if a != [] {
      StationLessIrreflexive(a[1..]);
    }
  }

  lemma {:induction false} StationLessTransitive(a: string, b: string, c: string)
    requires StationLess(a, b) && StationLess(b, c)
    ensures StationLess(a, c)
  {
    if a != [] && a[0] == b[0] && b[0] == c[0] {
      StationLessTransitive(a[1..], b[1..], c[1..]);
    }
  }

  lemma {:induction false} StationLessTotal(a: string, b: string)
    requires a != b
    ensures StationLess(a, b) || StationLess(b, a)
  {
    if a != [] && b != [] && a[0] == b[0] {
      assert a == [a[0]] + a[1..] && b == [b[0]] + b[1..];
      StationLessTotal(a[1..], b[1..]);
    }
  }

  lemma StationLessIsStrictTotalOrder()
    ensures IsStrictTotalOrder(StationLess)
  {
    forall a ensures !StationLess(a, a) {
      StationLessIrreflexive(a);
    }
    forall a, b, c | StationLess(a, b) && StationLess(b, c) ensures StationLess(a, c) {
      StationLessTransitive(a, b, c);
    }
    forall a, b | a != b ensures StationLess(a, b) || StationLess(b, a) {
      StationLessTotal(a, b);
    }
  }
}
