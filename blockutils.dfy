/**
 * Replace-by-id over a working set: every block carrying the id of the
 * current block is replaced by it, every other block is kept, and the order
 * is preserved.
 */
module BlockUtils {
  import opened Types

  /** The per-element choice made inside the map. */
  function Pick(block: Block, currentBlock: Block): Block
  {
    if block.id != currentBlock.id then block else currentBlock
  }

  /** The map over the working set, one element at a time. */
  function GetNewBlocks(blocks: seq<Block>, currentBlock: Block): (r: seq<Block>)
    ensures |r| == |blocks|
    ensures forall i :: 0 <= i < |blocks| && blocks[i].id != currentBlock.id ==> r[i] == blocks[i]
    ensures forall i :: 0 <= i < |blocks| && blocks[i].id == currentBlock.id ==> r[i] == currentBlock
  {
    if blocks == [] then []
    else [Pick(blocks[0], currentBlock)] + GetNewBlocks(blocks[1..], currentBlock)
  }

  /** The id at every index survives the replacement. */
  lemma GetNewBlocksKeepsIds(blocks: seq<Block>, currentBlock: Block)
    ensures Ids(GetNewBlocks(blocks, currentBlock)) == Ids(blocks)
  {
    var r := GetNewBlocks(blocks, currentBlock);
    assert forall i :: 0 <= i < |blocks| ==> Ids(r)[i] == Ids(blocks)[i];
  }

  /** With no block of the current id, the working set comes back unchanged. */
  lemma {:induction false} GetNewBlocksAbsentId(blocks: seq<Block>, currentBlock: Block)
    requires forall i :: 0 <= i < |blocks| ==> blocks[i].id != currentBlock.id
    ensures GetNewBlocks(blocks, currentBlock) == blocks
  {
    if blocks != [] {
      GetNewBlocksAbsentId(blocks[1..], currentBlock);
    }
  }

  /** Replacing twice is replacing once. */
  lemma {:induction false} GetNewBlocksIdempotent(blocks: seq<Block>, currentBlock: Block)
    ensures GetNewBlocks(GetNewBlocks(blocks, currentBlock), currentBlock)
         == GetNewBlocks(blocks, currentBlock)
  {
    if blocks != [] {
      GetNewBlocksIdempotent(blocks[1..], currentBlock);
      var r := GetNewBlocks(blocks, currentBlock);
      assert r[1..] == GetNewBlocks(blocks[1..], currentBlock);
    }
  }

  /** The current block is in the result exactly when its id occurs in the input. */
  lemma GetNewBlocksContainsCurrent(blocks: seq<Block>, currentBlock: Block)
    ensures currentBlock in GetNewBlocks(blocks, currentBlock)
        <==> exists i :: 0 <= i < |blocks| && blocks[i].id == currentBlock.id
  {
    var r := GetNewBlocks(blocks, currentBlock);
    if currentBlock in r {
      var k :| 0 <= k < |r| && r[k] == currentBlock;
      assert blocks[k].id == currentBlock.id;
    }
    if exists i :: 0 <= i < |blocks| && blocks[i].id == currentBlock.id {
      var k :| 0 <= k < |blocks| && blocks[k].id == currentBlock.id;
      assert r[k] == currentBlock;
    }
  }
}
