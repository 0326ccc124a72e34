/**
 * Axis-aligned collision geometry and the post-gesture collision resolver.
 */
module CollisionUtils {
  import opened Types
  import opened BlockUtils

  function Abs(v: real): real
  {
    if v < 0.0 then -v else v
  }

  /**
   * Two blocks collide when, on both axes, the distance between their centres
   * is strictly below the sum of their half-extents.
   */
  function HasCollision(currentBlock: Block, targetBlock: Block): bool
  {
    var currentCenterX := currentBlock.position.x + currentBlock.size.width / 2.0;
    var currentCenterY := currentBlock.position.y + currentBlock.size.height / 2.0;
    var targetCenterX := targetBlock.position.x + targetBlock.size.width / 2.0;
    var targetCenterY := targetBlock.position.y + targetBlock.size.height / 2.0;
    var distanceX := Abs(currentCenterX - targetCenterX);
    var distanceY := Abs(currentCenterY - targetCenterY);
    distanceX < currentBlock.size.width / 2.0 + targetBlock.size.width / 2.0 &&
    distanceY < currentBlock.size.height / 2.0 + targetBlock.size.height / 2.0
  }

  /** The open intervals (lo, lo + len) of the two blocks overlap on both axes. */
  predicate StrictOverlap(a: Block, b: Block)
  {
    a.position.x < b.position.x + b.size.width && b.position.x < a.position.x + a.size.width &&
    a.position.y < b.position.y + b.size.height && b.position.y < a.position.y + a.size.height
  }

  /** The centre-distance test is exactly strict interval overlap on both axes. */
  lemma HasCollisionIsStrictOverlap(a: Block, b: Block)
    ensures HasCollision(a, b) <==> StrictOverlap(a, b)
  {
  }

  /** Swapping the two blocks never changes the answer. */
  lemma HasCollisionSymmetric(a: Block, b: Block)
    ensures HasCollision(a, b) == HasCollision(b, a)
  {
  }

  /** Blocks that only share a vertical or horizontal edge do not collide. */
  lemma EdgeContactIsNoCollision(a: Block, b: Block)
    requires a.position.x + a.size.width == b.position.x
          || a.position.y + a.size.height == b.position.y
    ensures !HasCollision(a, b) && !HasCollision(b, a)
  {
    HasCollisionIsStrictOverlap(a, b);
    HasCollisionIsStrictOverlap(b, a);
  }

  /** The library's own rectangle examples: apart, overlapping by 25 x 25, touching at x = 50. */
  lemma RectangleExamples()
    ensures !HasCollision(Block(1, Position(0.0, 0.0), Size(50.0, 50.0), None),
                          Block(2, Position(60.0, 0.0), Size(50.0, 50.0), None))
    ensures HasCollision(Block(1, Position(0.0, 0.0), Size(50.0, 50.0), None),
                         Block(2, Position(25.0, 25.0), Size(50.0, 50.0), None))
    ensures !HasCollision(Block(1, Position(0.0, 0.0), Size(50.0, 50.0), None),
                          Block(2, Position(50.0, 0.0), Size(50.0, 50.0), None))
  {
  }

  /**
   * `some` over the working set: a block other than the one with
   * `draggingBlockId` collides with `draggingBlock`.
   */
  function HasCollisionWithOthers(draggingBlock: Block, workBlocks: seq<Block>, draggingBlockId: int): (r: bool)
    ensures r <==> exists i :: 0 <= i < |workBlocks| && workBlocks[i].id != draggingBlockId
                               && HasCollision(draggingBlock, workBlocks[i])
  {
    if workBlocks == [] then false
    else if workBlocks[0].id != draggingBlockId && HasCollision(draggingBlock, workBlocks[0]) then true
    else HasCollisionWithOthers(draggingBlock, workBlocks[1..], draggingBlockId)
  }

  /** The `filter` that drops every block with the given id. */
  function OthersOf(workBlocks: seq<Block>, id: int): (r: seq<Block>)
    ensures |r| <= |workBlocks|
    ensures forall b :: b in r <==> b in workBlocks && b.id != id
  {
    if workBlocks == [] then []
    else if workBlocks[0].id != id then [workBlocks[0]] + OthersOf(workBlocks[1..], id)
    else OthersOf(workBlocks[1..], id)
  }

  /**
   * Filtering the active block out first changes nothing: the id test in
   * HasCollisionWithOthers already skips it.
   */
  lemma OthersFilterIsRedundant(activeBlock: Block, workBlocks: seq<Block>)
    ensures HasCollisionWithOthers(activeBlock, OthersOf(workBlocks, activeBlock.id), activeBlock.id)
         == HasCollisionWithOthers(activeBlock, workBlocks, activeBlock.id)
  {
    var others := OthersOf(workBlocks, activeBlock.id);
    if HasCollisionWithOthers(activeBlock, workBlocks, activeBlock.id) {
      var i :| 0 <= i < |workBlocks| && workBlocks[i].id != activeBlock.id
               && HasCollision(activeBlock, workBlocks[i]);
      assert workBlocks[i] in others;
    }
  }

  datatype ResolveCollisionResult = ResolveCollisionResult(
    updatedBlock: Block, sortedBlocks: seq<Block>, newBlocks: seq<Block>)

  /**
   * Resolution after a gesture. On conflict the block is re-placed at its
   * own position (the re-placement policy is unfinished), so both branches
   * return the active block and the replaced working set twice.
   */
  function ResolveCollision(activeBlock: Block, workBlocks: seq<Block>): (r: ResolveCollisionResult)
    ensures r.updatedBlock == activeBlock
    ensures r.sortedBlocks == r.newBlocks == GetNewBlocks(workBlocks, activeBlock)
    ensures |r.newBlocks| == |workBlocks| && Ids(r.newBlocks) == Ids(workBlocks)
  {
    var otherBlocks := OthersOf(workBlocks, activeBlock.id);
    var newBlocks := GetNewBlocks(workBlocks, activeBlock);
    GetNewBlocksKeepsIds(workBlocks, activeBlock);
    if HasCollisionWithOthers(activeBlock, otherBlocks, activeBlock.id) then
      var newPosition := Position(activeBlock.position.x, activeBlock.position.y);
      var updatedBlock := activeBlock.(position := newPosition);
      ResolveCollisionResult(updatedBlock, newBlocks, newBlocks)
    else
      ResolveCollisionResult(activeBlock, newBlocks, newBlocks)
  }

  /**
   * The committed working set holds the resolved block at every index of its
   * id and is otherwise the input, whether or not there was a conflict.
   */
  lemma ResolveCollisionCommits(activeBlock: Block, workBlocks: seq<Block>, i: int)
    requires 0 <= i < |workBlocks|
    ensures var r := ResolveCollision(activeBlock, workBlocks);
      && r.sortedBlocks[i] == (if workBlocks[i].id == activeBlock.id then r.updatedBlock else workBlocks[i])
  {
  }

  /** Resolving the committed set again is a no-op on it. */
  lemma ResolveCollisionIdempotent(activeBlock: Block, workBlocks: seq<Block>)
    ensures var r := ResolveCollision(activeBlock, workBlocks);
      ResolveCollision(r.updatedBlock, r.sortedBlocks) == r
  {
    GetNewBlocksIdempotent(workBlocks, activeBlock);
  }
}
