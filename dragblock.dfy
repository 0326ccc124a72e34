/**
 * The drag gesture controller: pointer-down captures the anchor offset,
 * pointer-move recomputes the snapped candidate position of the live block,
 * pointer-up either reverts (out of bounds) or resolves and commits.
 */
module DragBlock {
  import opened Types
  import opened BlockUtils
  import opened CollisionUtils

  /**
   * The bound check `isInBound(position, block, scrollOffset, container,
   * originOffset, toleranceOffset)`; its body is not part of this model.
   */
  type BoundCheck = (Position, Block, real, Option<Rect>, Position, Position) -> bool

  /** `snapPositionToGrid`; its body is not part of this model. */
  type GridSnap = Position -> Position

  /** The origin and tolerance offsets the end of a drag passes to the bound check. */
  const OriginOffset: Position := Position(0.0, 10.0)
  const ToleranceOffset: Position := Position(0.0, 10.0)

  /** The pointer in container-local coordinates; the origin when no container is attached. */
  function GetContainerCoords(e: PointerEvent, container: Option<Rect>): Position
  {
    match container
    case None => Position(0.0, 0.0)
    case Some(rect) => Position(e.clientX - rect.left, e.clientY - rect.top)
  }

  /**
   * Container coordinates are the client point seen from the container's
   * top-left corner: adding the corner back gives the client point.
   */
  lemma ContainerCoordsInverse(e: PointerEvent, container: Option<Rect>)
    ensures container.None? ==> GetContainerCoords(e, container) == Position(0.0, 0.0)
    ensures container.Some? ==>
      GetContainerCoords(e, container).x + container.value.left == e.clientX &&
      GetContainerCoords(e, container).y + container.value.top == e.clientY
  {
  }

  /**
   * The anchor captured at pointer-down: pointer minus block origin, with the
   * scroll offset added on x only.
   */
  function DragOffsetFor(e: PointerEvent, container: Option<Rect>, scrollOffset: real, block: Block): Position
  {
    var left := if container.Some? then container.value.left else 0.0;
    var top := if container.Some? then container.value.top else 0.0;
    Position(e.clientX - left + scrollOffset - block.position.x,
             e.clientY - top - block.position.y)
  }

  /** The unsnapped position a pointer-move proposes for the live block. */
  function CandidatePosition(coords: Position, scrollOffset: real, dragOffset: Position): Position
  {
    Position(coords.x + scrollOffset - dragOffset.x, coords.y - dragOffset.y)
  }

  /**
   * With a container attached, the anchor offset is the container-local
   * pointer, shifted by the scroll offset on x, minus the block's position.
   */
  lemma DragOffsetFromCoords(e: PointerEvent, container: Option<Rect>, scrollOffset: real, block: Block)
    requires container.Some?
    ensures var coords := GetContainerCoords(e, container);
      DragOffsetFor(e, container, scrollOffset, block)
        == Position(coords.x + scrollOffset - block.position.x, coords.y - block.position.y)
  {
    var rect := container.value;
    assert GetContainerCoords(e, container) == Position(e.clientX - rect.left, e.clientY - rect.top);
  }

  /**
   * Anchor round trip: moving at the client point of the pointer-down, with
   * the same container rectangle and scroll offset, proposes the block's own
   * position.
   */
  lemma AnchorRoundTrip(e: PointerEvent, container: Option<Rect>, scrollOffset: real, block: Block)
    requires container.Some?
    ensures CandidatePosition(GetContainerCoords(e, container), scrollOffset,
                              DragOffsetFor(e, container, scrollOffset, block)) == block.position
  {
    DragOffsetFromCoords(e, container, scrollOffset, block);
  }

  /**
   * Without a container the two fallbacks disagree: the pointer falls back
   * to the origin while the anchor keeps the client point, so the round trip
   * misses. Pointer (100, 100) on a block at (10, 10) proposes (-90, -90).
   */
  lemma AnchorWithoutContainer()
    ensures var e := PointerEvent(100.0, 100.0);
      var block := Block(1, Position(10.0, 10.0), Size(50.0, 50.0), None);
      CandidatePosition(GetContainerCoords(e, None), 0.0, DragOffsetFor(e, None, 0.0, block))
        == Position(-90.0, -90.0)
  {
  }

  /** With a container attached, the candidate moves exactly as far as the pointer. */
  lemma CandidateFollowsPointer(e: PointerEvent, dx: real, dy: real, rect: Rect,
                                scrollOffset: real, dragOffset: Position)
    ensures var before := CandidatePosition(GetContainerCoords(e, Some(rect)), scrollOffset, dragOffset);
      var after := CandidatePosition(GetContainerCoords(PointerEvent(e.clientX + dx, e.clientY + dy), Some(rect)),
                                     scrollOffset, dragOffset);
      after == Position(before.x + dx, before.y + dy)
  {
  }

  class DragController {
    const isInBound: BoundCheck
    const snapPositionToGrid: GridSnap

    /** The live block, or None when idle. */
    var draggingBlock: Option<Block>
    /** The container-local pointer, for rendering only. */
    var dragPointerPosition: Option<Position>
    /** The pointer-to-block anchor captured at pointer-down. */
    var dragOffset: Position
    /** The calls made into the host, in order. */
    var calls: seq<HostCall>

    constructor (isInBound: BoundCheck, snapPositionToGrid: GridSnap)
      ensures this.isInBound == isInBound && this.snapPositionToGrid == snapPositionToGrid
      ensures draggingBlock == None && dragPointerPosition == None
      ensures dragOffset == Position(0.0, 0.0) && calls == []
    {
      this.isInBound := isInBound;
      this.snapPositionToGrid := snapPositionToGrid;
      draggingBlock := None;
      dragPointerPosition := None;
      dragOffset := Position(0.0, 0.0);
      calls := [];
    }

    /** Pointer-down on `block`: capture the anchor and start dragging. */
    method HandleStartDrag(e: PointerEvent, block: Block, container: Option<Rect>, scrollOffset: real)
      modifies this
      ensures draggingBlock == Some(block)
      ensures dragPointerPosition == Some(GetContainerCoords(e, container))
      ensures dragOffset == DragOffsetFor(e, container, scrollOffset, block)
      ensures calls == old(calls)
    {
      var containerCoords := GetContainerCoords(e, container);
      var left := if container.Some? then container.value.left else 0.0;
      var top := if container.Some? then container.value.top else 0.0;
      dragOffset := Position(e.clientX - left + scrollOffset - block.position.x,
                             e.clientY - top - block.position.y);
      draggingBlock := Some(block);
      dragPointerPosition := Some(containerCoords);
    }

    /**
     * Pointer-move: when dragging, the live block takes the snapped
     * candidate position and nothing else about it changes.
     */
    method HandlePointerMove(e: PointerEvent, container: Option<Rect>, scrollOffset: real)
      modifies this
      ensures old(draggingBlock) == None ==> unchanged(this)
      ensures old(draggingBlock).Some? ==>
        var was := old(draggingBlock).value;
        var coords := GetContainerCoords(e, container);
        && dragPointerPosition == Some(coords)
        && draggingBlock.Some?
        && draggingBlock.value.position == snapPositionToGrid(CandidatePosition(coords, scrollOffset, dragOffset))
        && draggingBlock.value.id == was.id
        && draggingBlock.value.size == was.size
        && draggingBlock.value.angle == was.angle
        && dragOffset == old(dragOffset) && calls == old(calls)
    {
      if draggingBlock == None {
        return;
      }
      var containerCoords := GetContainerCoords(e, container);
      dragPointerPosition := Some(containerCoords);
      var newPosition := Position(containerCoords.x + scrollOffset - dragOffset.x,
                                  containerCoords.y - dragOffset.y);
      var snappedPosition := snapPositionToGrid(newPosition);
      draggingBlock := Some(draggingBlock.value.(position := snappedPosition));
    }

    /**
     * Pointer-up: when dragging, clear the live state; a block out of bounds
     * is animated back to the working set and not committed, a block in
     * bounds is resolved, animated into place and committed once.
     */
    method HandleEndDrag(workBlocks: seq<Block>, container: Option<Rect>, scrollOffset: real)
      modifies this
      ensures old(draggingBlock) == None ==> unchanged(this)
      ensures old(draggingBlock).Some? ==>
        draggingBlock == None && dragPointerPosition == None && dragOffset == old(dragOffset)
      ensures old(draggingBlock).Some? ==>
        var block := old(draggingBlock).value;
        var r := ResolveCollision(block, workBlocks);
        calls == old(calls) +
          if isInBound(block.position, block, scrollOffset, container, OriginOffset, ToleranceOffset)
          then [Animate(r.newBlocks, r.sortedBlocks), Commit(block)]
          else [Animate(GetNewBlocks(workBlocks, block), workBlocks)]
    {
      if draggingBlock == None {
        return;
      }
      var currentDraggingBlock := draggingBlock.value;
      draggingBlock := None;
      dragPointerPosition := None;
      if !isInBound(currentDraggingBlock.position, currentDraggingBlock, scrollOffset, container,
                    OriginOffset, ToleranceOffset) {
        calls := calls + [Animate(GetNewBlocks(workBlocks, currentDraggingBlock), workBlocks)];
        return;
      }
      var resolved := ResolveCollision(currentDraggingBlock, workBlocks);
      calls := calls + [Animate(resolved.newBlocks, resolved.sortedBlocks)];
      calls := calls + [Commit(resolved.updatedBlock)];
    }
  }

  /**
   * A whole gesture released where it started: the committed block is the
   * original block at its snapped position, and the working set animates to
   * that block in place of the original.
   */
  method DragInPlaceScenario(isInBound: BoundCheck, snap: GridSnap, e: PointerEvent, block: Block,
                             workBlocks: seq<Block>, container: Option<Rect>, scrollOffset: real)
    requires container.Some?
  {
    var drag := new DragController(isInBound, snap);
    drag.HandleStartDrag(e, block, container, scrollOffset);
    drag.HandlePointerMove(e, container, scrollOffset);
    AnchorRoundTrip(e, container, scrollOffset, block);
    var moved := block.(position := snap(block.position));
    assert drag.draggingBlock == Some(moved);
    drag.HandleEndDrag(workBlocks, container, scrollOffset);
    assert drag.draggingBlock == None;
    if isInBound(moved.position, moved, scrollOffset, container, OriginOffset, ToleranceOffset) {
      assert drag.calls[|drag.calls| - 1] == Commit(moved);
      assert drag.calls[|drag.calls| - 2] == Animate(GetNewBlocks(workBlocks, moved), GetNewBlocks(workBlocks, moved));
    } else {
      assert drag.calls == [Animate(GetNewBlocks(workBlocks, moved), workBlocks)];
    }
  }
}
