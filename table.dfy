/**
 * The persistence layer as the services see it: a table is a map from
 * primary key to row. The database engine is chosen by configuration and
 * is not part of the model, so two of its choices are fixed here: a full
 * scan (a query without an ordering) yields the rows in ascending key
 * order, and a new row receives the key one past the largest in use, or 1
 * in an empty table. Keys are positive.
 */
module Table {
  import opened Runtime

  lemma SomeKey(keys: set<int>) returns (x: int)
    requires keys != {}
    ensures x in keys
  {
    if forall k :: k !in keys {
      assert false;
    }
    x :| x in keys;
  }

  lemma {:induction false} HasMinimum(keys: set<int>)
    requires keys != {}
    ensures exists m :: m in keys && forall k :: k in keys ==> m <= k
    decreases |keys|
  {
    var x := SomeKey(keys);
    if keys == {x} {
      assert forall k :: k in keys ==> k == x;
    } else {
      var rest := keys - {x};
      HasMinimum(rest);
      var m :| m in rest && forall k :: k in rest ==> m <= k;
      var least := if x < m then x else m;
      forall k | k in keys
        ensures least <= k
      {
        if k != x {
          assert k in rest;
        }
      }
      assert least in keys;
    }
  }

  /** The smallest key in use. */
  function MinOf(keys: set<int>): (m: int)
    requires keys != {}
    ensures m in keys && forall k :: k in keys ==> m <= k
  {
    HasMinimum(keys);
    var m :| m in keys && forall k :: k in keys ==> m <= k;
    m
  }

  /** The keys in ascending order, each once. */
  function SortedKeys(keys: set<int>): (ks: seq<int>)
    ensures |ks| == |keys|
    ensures forall i :: 0 <= i < |ks| ==> ks[i] in keys
    ensures forall k :: k in keys ==> k in ks
    ensures forall i, j :: 0 <= i < j < |ks| ==> ks[i] < ks[j]
    decreases |keys|
  {
    if keys == {} then []
    else
      var m := MinOf(keys);
      [m] + SortedKeys(keys - {m})
  }

  /** A full scan of the table: its rows in ascending key order. */
  function Listing<R>(rows: map<int, R>): (s: seq<R>)
    ensures |s| == |rows|
    ensures forall i :: 0 <= i < |s| ==> SortedKeys(rows.Keys)[i] in rows && s[i] == rows[SortedKeys(rows.Keys)[i]]
  {
    var ks := SortedKeys(rows.Keys);
    seq(|ks|, i requires 0 <= i < |ks| => rows[ks[i]])
  }

  /** Every row of the table appears in the scan and nothing else does. */
  lemma ListingHoldsEveryRow<R>(rows: map<int, R>)
    ensures forall k :: k in rows ==> rows[k] in Listing(rows)
    ensures forall r :: r in Listing(rows) ==> r in rows.Values
  {
    var ks := SortedKeys(rows.Keys);
    var s := Listing(rows);
    forall k | k in rows
      ensures rows[k] in s
    {
      var i :| 0 <= i < |ks| && ks[i] == k;
      assert s[i] == rows[k];
    }
  }

  /** When every row records its own key, the scan lists the rows in
      ascending order of that record. */
  lemma ListingByKey<R>(rows: map<int, R>, key: R -> int)
    requires forall k :: k in rows ==> key(rows[k]) == k
    ensures forall i :: 0 <= i < |Listing(rows)| ==>
              key(Listing(rows)[i]) in rows && rows[key(Listing(rows)[i])] == Listing(rows)[i]
    ensures forall i, j :: 0 <= i < j < |Listing(rows)| ==> key(Listing(rows)[i]) < key(Listing(rows)[j])
  {
    var s := Listing(rows);
    var ks := SortedKeys(rows.Keys);
    assert forall i :: 0 <= i < |s| ==> key(s[i]) == ks[i];
  }

  /** What a successful `query.all()` followed by `if not rows: return None`
      gives: `None` for an empty table, otherwise the scan, which holds
      every row once. */
  function QueryAll<R>(rows: map<int, R>): (found: Option<seq<R>>)
    ensures found.None? <==> rows == map[]
    ensures found.Some? ==> found.value == Listing(rows)
    ensures found.Some? ==> |found.value| == |rows| && forall k :: k in rows ==> rows[k] in found.value
  {
    var all := Listing(rows);
    ListingHoldsEveryRow(rows);
    if |all| == 0 then None else Some(all)
  }

  /** When every row records its own key, the listed rows come in strictly
      ascending order of that key, each the stored row under it. */
  lemma QueryAllInKeyOrder<R>(rows: map<int, R>, key: R -> int)
    requires forall k :: k in rows ==> key(rows[k]) == k
    requires QueryAll(rows).Some?
    ensures var listed := QueryAll(rows).value;
              forall i :: 0 <= i < |listed| ==> key(listed[i]) in rows && rows[key(listed[i])] == listed[i]
    ensures var listed := QueryAll(rows).value;
              forall i, j :: 0 <= i < j < |listed| ==> key(listed[i]) < key(listed[j])
  {
    ListingByKey(rows, key);
  }

  /** Every key in use is a positive id. */
  predicate PositiveKeys<R>(rows: map<int, R>)
  {
    forall k :: k in rows ==> k >= 1
  }

  /** The key a new row receives: one past the largest in use, or 1 in an
      empty table. */
  function NextId(keys: set<int>): (id: int)
    requires forall k :: k in keys ==> k >= 1
    ensures id >= 1
    ensures id !in keys
    ensures forall k :: k in keys ==> k < id
    ensures keys == {} ==> id == 1
    ensures keys != {} ==> id - 1 in keys
  {
    if keys == {} then 1
    else
      var ks := SortedKeys(keys);
      var largest := ks[|ks| - 1];
      assert forall k :: k in keys ==> k <= largest by {
        forall k | k in keys
          ensures k <= largest
        {
          var i :| 0 <= i < |ks| && ks[i] == k;
          assert i == |ks| - 1 || ks[i] < ks[|ks| - 1];
        }
      }
      largest + 1
  }

  /** A sequence computed element by element from another holds the image
      of every element of the other. */
  lemma MappedHoldsImage<A, B>(xs: seq<A>, ys: seq<B>, f: A -> B, x: A)
    requires |ys| == |xs| && forall i :: 0 <= i < |xs| ==> ys[i] == f(xs[i])
    requires x in xs
    ensures f(x) in ys
  {
    var i :| 0 <= i < |xs| && xs[i] == x;
    assert ys[i] == f(x);
  }
}
