/**
 * The detection pass: an i < j pairwise scan of the working set that
 * collects the ids of every colliding pair, then publishes them to the store
 * unless the caller's last snapshot already holds the same ids.
 */
module CollisionDetection {
  import opened Types
  import opened CollisionUtils
  import opened CollisionStore

  /**
   * The three-way collision test, chosen by mode. Only its rectangle
   * branch is part of this model (CollisionUtils.HasCollision); the caller
   * supplies the whole dispatcher.
   */
  type Dispatcher = (CollisionType, Block, Block) -> bool

  /** The mode used when the caller names none. */
  const DefaultMode: CollisionType := Rectangle

  /** The dispatcher's rectangle branch is the axis-aligned test. */
  ghost predicate RectangleIsAabb(dispatch: Dispatcher)
  {
    forall a, b :: dispatch(Rectangle, a, b) == HasCollision(a, b)
  }

  ghost predicate Symmetric(dispatch: Dispatcher, mode: CollisionType)
  {
    forall a, b :: dispatch(mode, a, b) == dispatch(mode, b, a)
  }

  /** The scan tests the pair p < q and finds a collision. */
  ghost predicate Hit(blocks: seq<Block>, dispatch: Dispatcher, mode: CollisionType, p: int, q: int)
  {
    0 <= p < q < |blocks| && dispatch(mode, blocks[p], blocks[q])
  }

  /** Id `x` belongs to one of a colliding pair. */
  ghost predicate InCollision(blocks: seq<Block>, dispatch: Dispatcher, mode: CollisionType, x: int)
  {
    exists p, q :: Hit(blocks, dispatch, mode, p, q) && (blocks[p].id == x || blocks[q].id == x)
  }

  /** As InCollision, over the pairs the scan has visited before (i, j). */
  ghost predicate ScannedBefore(blocks: seq<Block>, dispatch: Dispatcher, mode: CollisionType,
                                i: int, j: int, x: int)
  {
    exists p, q :: Hit(blocks, dispatch, mode, p, q) && (p < i || (p == i && q < j))
                   && (blocks[p].id == x || blocks[q].id == x)
  }

  predicate NoDuplicates(s: seq<int>)
  {
    forall i, j :: 0 <= i < j < |s| ==> s[i] != s[j]
  }

  /** `Set.add` on an insertion-ordered set, seen through `Array.from`. */
  function AddId(next: seq<int>, id: int): (r: seq<int>)
    requires NoDuplicates(next)
    ensures NoDuplicates(r)
    ensures forall x :: x in r <==> x in next || x == id
    ensures next <= r
  {
    if id in next then next else next + [id]
  }

  lemma ScanAdvance(blocks: seq<Block>, dispatch: Dispatcher, mode: CollisionType, i: int, j: int, x: int)
    requires 0 <= i < j < |blocks|
    ensures ScannedBefore(blocks, dispatch, mode, i, j + 1, x)
        <==> ScannedBefore(blocks, dispatch, mode, i, j, x)
             || (Hit(blocks, dispatch, mode, i, j) && (blocks[i].id == x || blocks[j].id == x))
  {
    if ScannedBefore(blocks, dispatch, mode, i, j + 1, x) {
      var p, q :| Hit(blocks, dispatch, mode, p, q) && (p < i || (p == i && q < j + 1))
                  && (blocks[p].id == x || blocks[q].id == x);
      if !(p == i && q == j) {
        assert ScannedBefore(blocks, dispatch, mode, i, j, x);
      }
    }
  }

  lemma ScanRowStart(blocks: seq<Block>, dispatch: Dispatcher, mode: CollisionType, i: int, x: int)
    requires 0 <= i
    ensures ScannedBefore(blocks, dispatch, mode, i, i + 1, x) <==> ScannedBefore(blocks, dispatch, mode, i, 0, x)
  {
  }

  lemma ScanRowEnd(blocks: seq<Block>, dispatch: Dispatcher, mode: CollisionType, i: int, x: int)
    requires 0 <= i
    ensures ScannedBefore(blocks, dispatch, mode, i, |blocks|, x) <==> ScannedBefore(blocks, dispatch, mode, i + 1, 0, x)
  {
  }

  /**
   * The nested scan. The result is duplicate-free and holds exactly the ids
   * of the blocks in a colliding pair, in the mode given or by default in
   * rectangle mode.
   */
  method CollidingIds(blocks: seq<Block>, mode: Option<CollisionType>, dispatch: Dispatcher)
    returns (result: seq<int>)
    ensures NoDuplicates(result)
    ensures forall x :: x in result <==> InCollision(blocks, dispatch, mode.GetOr(DefaultMode), x)
    ensures |blocks| < 2 ==> result == []
  {
    var m := mode.GetOr(DefaultMode);
    var next: seq<int> := [];
    var i := 0;
    while i < |blocks|
      invariant 0 <= i <= |blocks|
      invariant NoDuplicates(next)
      invariant forall x :: x in next <==> ScannedBefore(blocks, dispatch, m, i, 0, x)
      invariant |blocks| < 2 ==> next == []
    {
      var j := i + 1;
      forall x { ScanRowStart(blocks, dispatch, m, i, x); }
      while j < |blocks|
        invariant i + 1 <= j <= |blocks|
        invariant NoDuplicates(next)
        invariant forall x :: x in next <==> ScannedBefore(blocks, dispatch, m, i, j, x)
        invariant |blocks| < 2 ==> next == []
      {
        forall x { ScanAdvance(blocks, dispatch, m, i, j, x); }
        if dispatch(m, blocks[i], blocks[j]) {
          assert Hit(blocks, dispatch, m, i, j);
          next := AddId(next, blocks[i].id);
          next := AddId(next, blocks[j].id);
        }
        j := j + 1;
      }
      forall x { ScanRowEnd(blocks, dispatch, m, i, x); }
      i := i + 1;
    }
    result := next;
  }

  /** The snapshot has the result's length and each of its ids occurs in the result. */
  predicate SameIds(collidedIds: seq<int>, result: seq<int>)
  {
    |collidedIds| == |result| && forall k :: 0 <= k < |collidedIds| ==> collidedIds[k] in result
  }

  /**
   * The detection pass with change suppression: the store is written with
   * the fresh result unless `collidedIds`, the snapshot the caller last
   * rendered, already matches it. The fresh result is returned either way.
   */
  method ComputeCollisions(blocks: seq<Block>, mode: Option<CollisionType>, dispatch: Dispatcher,
                           store: Store, collidedIds: seq<int>)
    returns (result: seq<int>)
    modifies store
    ensures NoDuplicates(result)
    ensures forall x :: x in result <==> InCollision(blocks, dispatch, mode.GetOr(DefaultMode), x)
    ensures SameIds(collidedIds, result) ==>
      store.ids == old(store.ids) && store.listeners == old(store.listeners) && store.calls == old(store.calls)
    ensures !SameIds(collidedIds, result) ==>
      && store.ids == result && store.listeners == old(store.listeners)
      && |old(store.calls)| <= |store.calls| && store.calls[..|old(store.calls)|] == old(store.calls)
      && multiset(store.calls[|old(store.calls)|..]) == multiset(store.listeners)
  {
    result := CollidingIds(blocks, mode, dispatch);
    if SameIds(collidedIds, result) {
      return;
    }
    store.SetCollisionIds(result);
  }

  /** Both ids of every colliding pair are reported. */
  lemma PairIdsReported(blocks: seq<Block>, dispatch: Dispatcher, mode: CollisionType, p: int, q: int)
    requires Hit(blocks, dispatch, mode, p, q)
    ensures InCollision(blocks, dispatch, mode, blocks[p].id)
    ensures InCollision(blocks, dispatch, mode, blocks[q].id)
  {
  }

  /**
   * For a symmetric test, an id is reported exactly when a block with that
   * id collides with a block at another index.
   */
  lemma InCollisionIffCollidesWithAnother(blocks: seq<Block>, dispatch: Dispatcher, mode: CollisionType, x: int)
    requires Symmetric(dispatch, mode)
    ensures InCollision(blocks, dispatch, mode, x)
        <==> exists k, n :: 0 <= k < |blocks| && 0 <= n < |blocks| && k != n
                            && blocks[k].id == x && dispatch(mode, blocks[k], blocks[n])
  {
    if InCollision(blocks, dispatch, mode, x) {
      var p, q :| Hit(blocks, dispatch, mode, p, q) && (blocks[p].id == x || blocks[q].id == x);
      if blocks[p].id == x {
        assert dispatch(mode, blocks[p], blocks[q]);
      } else {
        assert dispatch(mode, blocks[q], blocks[p]);
      }
    }
    if exists k, n :: 0 <= k < |blocks| && 0 <= n < |blocks| && k != n
                      && blocks[k].id == x && dispatch(mode, blocks[k], blocks[n]) {
      var k, n :| 0 <= k < |blocks| && 0 <= n < |blocks| && k != n
                  && blocks[k].id == x && dispatch(mode, blocks[k], blocks[n]);
      if k < n {
        assert Hit(blocks, dispatch, mode, k, n);
      } else {
        assert Hit(blocks, dispatch, mode, n, k);
      }
    }
  }

  lemma {:induction false} NoDuplicatesCardinality(s: seq<int>)
    requires NoDuplicates(s)
    ensures |IdSet(s)| == |s|
  {
    if s != [] {
      var rest := s[1..];
      assert NoDuplicates(rest);
      NoDuplicatesCardinality(rest);
      assert IdSet(s) == IdSet(rest) + {s[0]};
      assert s[0] !in rest;
    }
  }

  lemma SubsetCardinality(a: set<int>, b: set<int>)
    requires a <= b
    ensures |a| <= |b|
  {
    assert b == a + (b - a);
    assert a * (b - a) == {};
  }

  /** The ids of a snapshot, as a set. */
  function IdSet(s: seq<int>): set<int>
  {
    set x | x in s
  }

  /**
   * The suppression check is exact for duplicate-free snapshots: it skips
   * the write precisely when the snapshot and the result hold the same ids.
   */
  lemma SuppressionIsSetEquality(collidedIds: seq<int>, result: seq<int>)
    requires NoDuplicates(collidedIds) && NoDuplicates(result)
    ensures SameIds(collidedIds, result) <==> IdSet(collidedIds) == IdSet(result)
  {
    var a := IdSet(collidedIds);
    var b := IdSet(result);
    NoDuplicatesCardinality(collidedIds);
    NoDuplicatesCardinality(result);
    if SameIds(collidedIds, result) {
      assert a <= b;
      if a != b {
        var y :| y in b && y !in a;
        SubsetCardinality(a, b - {y});
      }
    }
    if a == b {
      assert forall k :: 0 <= k < |collidedIds| ==> collidedIds[k] in a;
    }
  }

  /**
   * A snapshot with a repeated id can pass the check although an id was
   * added: [1, 1] against [1, 2].
   */
  lemma SuppressionWithRepeatedIds()
    ensures SameIds([1, 1], [1, 2])
    ensures IdSet([1, 1]) != IdSet([1, 2])
  {
    var grown := [1, 2];
    assert grown[1] == 2;
    assert 2 in IdSet(grown);
    assert 2 !in IdSet([1, 1]);
  }

  /**
   * The library's detection examples in the default mode: two 50 x 50 blocks
   * overlapping by 25 x 25 report both ids, two blocks 10 apart report none.
   */
  lemma DetectionExamples(dispatch: Dispatcher)
    requires RectangleIsAabb(dispatch)
    ensures var blocks := [Block(1, Position(0.0, 0.0), Size(50.0, 50.0), None),
                           Block(2, Position(25.0, 25.0), Size(50.0, 50.0), None)];
      forall x :: InCollision(blocks, dispatch, DefaultMode, x) <==> x == 1 || x == 2
    ensures var blocks := [Block(1, Position(0.0, 0.0), Size(50.0, 50.0), None),
                           Block(2, Position(60.0, 0.0), Size(50.0, 50.0), None)];
      forall x :: !InCollision(blocks, dispatch, DefaultMode, x)
  {
    var overlapping := [Block(1, Position(0.0, 0.0), Size(50.0, 50.0), None),
                        Block(2, Position(25.0, 25.0), Size(50.0, 50.0), None)];
    assert HasCollision(overlapping[0], overlapping[1]);
    assert Hit(overlapping, dispatch, DefaultMode, 0, 1);
    var apart := [Block(1, Position(0.0, 0.0), Size(50.0, 50.0), None),
                  Block(2, Position(60.0, 0.0), Size(50.0, 50.0), None)];
    assert !HasCollision(apart[0], apart[1]);
  }
}
