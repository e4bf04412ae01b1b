/** Query results. SQL returns rows in the order of the sort keys and leaves the order open among
    rows with equal keys, so that order is a parameter: any ranking of the row ids. */
module Rows {

  function RankOf(rank: map<int, int>, id: int): int {
    if id in rank then rank[id] else 0
  }

  predicate Precedes(keys: map<int, int>, rank: map<int, int>, a: int, b: int)
    requires a in keys && b in keys
  {
    keys[a] < keys[b]
    || (keys[a] == keys[b]
        && (RankOf(rank, a) < RankOf(rank, b) || (RankOf(rank, a) == RankOf(rank, b) && a < b)))
  }

  predicate IsFirst(keys: map<int, int>, rank: map<int, int>, x: int) {
    x in keys && forall y | y in keys && y != x :: Precedes(keys, rank, x, y)
  }

  lemma SomeKey(keys: map<int, int>) returns (x: int)
    requires keys.Keys != {}
    ensures x in keys
  {
    if forall i: int :: i !in keys {
      assert false;
    }
    x :| x in keys;
  }

  lemma NoKeys(keys: map<int, int>)
    requires forall i :: i !in keys
    ensures keys.Keys == {}
  {
    if keys.Keys != {} {
      var x := SomeKey(keys);
      assert false;
    }
  }

  lemma {:induction false} FirstExists(keys: map<int, int>, rank: map<int, int>)
    requires keys.Keys != {}
    ensures exists x :: IsFirst(keys, rank, x)
    decreases |keys|
  {
    var x := SomeKey(keys);
    var rest := keys - {x};
    if rest.Keys == {} {
      assert forall y | y in keys :: y == x || y in rest;
      assert IsFirst(keys, rank, x);
    } else {
      assert |rest| < |keys| by {
        assert rest.Keys == keys.Keys - {x};
      }
      FirstExists(rest, rank);
      var f :| IsFirst(rest, rank, f);
      assert forall y | y in keys && y != x :: y in rest;
      assert IsFirst(keys, rank, if Precedes(keys, rank, x, f) then x else f);
    }
  }

  // The first row in the order of the keys; ties come in the database's own order.
  function First(keys: map<int, int>, rank: map<int, int>): (x: int)
    requires keys.Keys != {}
    ensures IsFirst(keys, rank, x)
  {
    FirstExists(keys, rank);
    var x :| IsFirst(keys, rank, x);
    x
  }

  // The rows with the given sort keys, in order.
  function Query(keys: map<int, int>, rank: map<int, int>): (ids: seq<int>)
    ensures forall i :: i in ids <==> i in keys
    ensures forall k | 0 <= k < |ids| :: ids[k] in keys
    ensures forall a, b | 0 <= a < b < |ids| :: ids[a] != ids[b]
    decreases |keys|
  {
    if keys.Keys == {} then []
    else
      var x := First(keys, rank);
      assert (keys - {x}).Keys == keys.Keys - {x};
      [x] + Query(keys - {x}, rank)
  }

  lemma QueryHead(keys: map<int, int>, rank: map<int, int>)
    requires keys.Keys != {}
    ensures var x := First(keys, rank); Query(keys, rank) == [x] + Query(keys - {x}, rank) && |keys - {x}| < |keys|
  {
    var x := First(keys, rank);
    assert (keys - {x}).Keys == keys.Keys - {x};
  }

  ghost predicate InOrder(keys: map<int, int>, rank: map<int, int>, ids: seq<int>) {
    && (forall k | 0 <= k < |ids| :: ids[k] in keys)
    && (forall a, b | 0 <= a < b < |ids| :: Precedes(keys, rank, ids[a], ids[b]))
  }

  lemma InOrderBehind(keys: map<int, int>, rank: map<int, int>, x: int, later: seq<int>)
    requires IsFirst(keys, rank, x) && InOrder(keys - {x}, rank, later)
    ensures InOrder(keys, rank, [x] + later)
  {
    var ids, rest := [x] + later, keys - {x};
    forall a, b | 0 <= a < b < |ids|
      ensures Precedes(keys, rank, ids[a], ids[b])
    {
      assert ids[b] == later[b - 1] && later[b - 1] in rest;
      if a > 0 {
        assert ids[a] == later[a - 1];
        assert Precedes(rest, rank, later[a - 1], later[b - 1]);
      }
    }
  }

  lemma {:induction false} QueryInOrder(keys: map<int, int>, rank: map<int, int>)
    ensures InOrder(keys, rank, Query(keys, rank))
    decreases |keys|
  {
    hide Query, First, InOrder, IsFirst;
    if keys.Keys != {} {
      var x := First(keys, rank);
      QueryHead(keys, rank);
      QueryInOrder(keys - {x}, rank);
      InOrderBehind(keys, rank, x, Query(keys - {x}, rank));
    } else {
      NoneInOrder(keys, rank);
    }
  }

  lemma NoneInOrder(keys: map<int, int>, rank: map<int, int>)
    requires keys.Keys == {}
    ensures InOrder(keys, rank, Query(keys, rank))
  {
  }

  lemma {:induction false} QueryLength(keys: map<int, int>, rank: map<int, int>)
    ensures |Query(keys, rank)| == |keys|
    decreases |keys|
  {
    if keys.Keys != {} {
      var x := First(keys, rank);
      assert (keys - {x}).Keys == keys.Keys - {x};
      QueryLength(keys - {x}, rank);
    }
  }

  function Take(ids: seq<int>, limit: nat): (r: seq<int>)
    ensures r <= ids
  {
    if |ids| <= limit then ids else ids[..limit]
  }
}
