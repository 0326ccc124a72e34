/**
 * The value types shared by the collision and gesture layer: a block with an
 * id, a top-left position, a size and an optional rotation angle in degrees.
 */
module Types {

  datatype Option<T> = None | Some(value: T) {
    /** The `??` operator: the carried value, or `default` when absent. */
    function GetOr(default: T): (r: T)
      ensures Some? ==> r == value
      ensures None? ==> r == default
    {
      match this
      case Some(v) => v
      case None => default
    }
  }

  /** A point in container-local pixel coordinates. */
  datatype Position = Position(x: real, y: real)

  datatype Size = Size(width: real, height: real)

  /**
   * A block. The declared block type has only id, position and size; the
   * rotate gesture reads and writes an optional `angle`, so it is part of the
   * value here.
   */
  datatype Block = Block(id: int, position: Position, size: Size, angle: Option<real>)

  /** The ids of a working set, in order. */
  function Ids(blocks: seq<Block>): (r: seq<int>)
    ensures |r| == |blocks|
    ensures forall i :: 0 <= i < |blocks| ==> r[i] == blocks[i].id
  {
    seq(|blocks|, i requires 0 <= i < |blocks| => blocks[i].id)
  }

  /** The collision models a caller can select. */
  datatype CollisionType = Rectangle | Circle | Obb

  /** The client-space coordinates of a pointer event. */
  datatype PointerEvent = PointerEvent(clientX: real, clientY: real)

  /** The container's bounding client rectangle. */
  datatype Rect = Rect(left: real, top: real, width: real, height: real)

  /**
   * A call a gesture controller makes into the host: the animated transition
   * between two working sets (arguments in call order), or the commit
   * callback with the finished block.
   */
  datatype HostCall = Animate(first: seq<Block>, second: seq<Block>) | Commit(block: Block)
}
