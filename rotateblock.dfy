/**
 * The rotate gesture controller: pointer-down on a corner handle captures
 * the pointer's angle about the block's centre and the block's angle,
 * pointer-move sets the live block's angle, pointer-up resolves, commits
 * and, when enabled, runs the detection pass.
 */
module RotateBlock {
  import opened Types
  import opened CollisionUtils
  import opened CollisionStore
  import opened CollisionDetection

  /** `Math.PI`. */
  const Pi: real := 3.141592653589793

  /** `Math.atan2(y, x)`, left uninterpreted. */
  type Atan2 = (real, real) -> real

  /** The optional collision options a caller passes. */
  datatype CollisionOptions = CollisionOptions(enabled: Option<bool>, mode: Option<CollisionType>)

  /** The options used when the caller passes none. */
  const DefaultCollisionOptions: CollisionOptions := CollisionOptions(Some(false), Some(Obb))

  function EnableCollision(options: Option<CollisionOptions>): bool
  {
    options.GetOr(DefaultCollisionOptions).enabled.GetOr(false)
  }

  function CollisionTypeOf(options: Option<CollisionOptions>): CollisionType
  {
    options.GetOr(DefaultCollisionOptions).mode.GetOr(Obb)
  }

  /** Detection is off and the mode is OBB unless the caller says otherwise. */
  lemma CollisionOptionDefaults(enabled: Option<bool>, mode: Option<CollisionType>)
    ensures !EnableCollision(None) && CollisionTypeOf(None) == Obb
    ensures EnableCollision(Some(CollisionOptions(enabled, mode))) == (enabled == Some(true))
    ensures CollisionTypeOf(Some(CollisionOptions(enabled, mode))) == if mode.Some? then mode.value else Obb
  {
  }

  /** The pointer's angle, in radians, about the centre of `block` in client space. */
  function PointerAngle(atan2: Atan2, e: PointerEvent, rect: Rect, block: Block): real
  {
    var centerX := rect.left + block.position.x + block.size.width / 2.0;
    var centerY := rect.top + block.position.y + block.size.height / 2.0;
    atan2(e.clientY - centerY, e.clientX - centerX)
  }

  /** The start angle plus the pointer's turn since pointer-down, in degrees, not normalised. */
  function NextAngle(startAngleDeg: real, startPointerAngleRad: real, currentAngleRad: real): real
  {
    var deltaRad := currentAngleRad - startPointerAngleRad;
    var deltaDeg := (deltaRad * 180.0) / Pi;
    startAngleDeg + deltaDeg
  }

  /** A pointer back at its starting angle leaves the block at its starting angle. */
  lemma NextAngleAtStart(startAngleDeg: real, startPointerAngleRad: real)
    ensures NextAngle(startAngleDeg, startPointerAngleRad, startPointerAngleRad) == startAngleDeg
  {
  }

  /**
   * No normalisation: a quarter turn from 350 degrees gives 440 degrees,
   * not 80.
   */
  lemma AngleIsNotNormalised()
    ensures NextAngle(350.0, 0.0, Pi / 2.0) == 440.0
  {
    assert ((Pi / 2.0 - 0.0) * 180.0) / Pi == 90.0;
  }

  /**
   * With pointer angles in the range of `Math.atan2`, [-pi, pi], one gesture
   * moves the block at most 360 degrees either way from its start angle.
   */
  lemma TurnWithinOneGesture(startAngleDeg: real, a: real, c: real)
    requires -Pi <= a <= Pi && -Pi <= c <= Pi
    ensures startAngleDeg - 360.0 <= NextAngle(startAngleDeg, a, c) <= startAngleDeg + 360.0
  {
    var deltaDeg := ((c - a) * 180.0) / Pi;
    assert -2.0 * Pi <= c - a <= 2.0 * Pi;
    assert (c - a) * 180.0 <= 360.0 * Pi;
    assert (c - a) * 180.0 >= -360.0 * Pi;
    assert deltaDeg <= 360.0;
    assert deltaDeg >= -360.0;
  }

  class RotateController {
    const atan2: Atan2
    /** The collision test by mode, for the detection pass. */
    const dispatch: Dispatcher
    const enableCollision: bool
    const collisionType: CollisionType
    /** The collision id store the detection pass publishes to. */
    const store: Store

    /** The live block, or None when idle. */
    var rotatingBlock: Option<Block>
    var startPointerAngleRad: Option<real>
    var startAngleDeg: real
    /** The calls made into the host, in order. */
    var calls: seq<HostCall>

    constructor (atan2: Atan2, dispatch: Dispatcher, collisionOptions: Option<CollisionOptions>, store: Store)
      ensures this.atan2 == atan2 && this.dispatch == dispatch && this.store == store
      ensures enableCollision == EnableCollision(collisionOptions)
      ensures collisionType == CollisionTypeOf(collisionOptions)
      ensures rotatingBlock == None && startPointerAngleRad == None
      ensures startAngleDeg == 0.0 && calls == []
    {
      this.atan2 := atan2;
      this.dispatch := dispatch;
      this.store := store;
      enableCollision := EnableCollision(collisionOptions);
      collisionType := CollisionTypeOf(collisionOptions);
      rotatingBlock := None;
      startPointerAngleRad := None;
      startAngleDeg := 0.0;
      calls := [];
    }

    /** Pointer-down on the handle of `block`; nothing happens without a container. */
    method HandleStartRotate(e: PointerEvent, block: Block, container: Option<Rect>)
      modifies this
      ensures container == None ==> unchanged(this)
      ensures container.Some? ==>
        && startPointerAngleRad == Some(PointerAngle(atan2, e, container.value, block))
        && startAngleDeg == block.angle.GetOr(0.0)
        && rotatingBlock == Some(block)
        && calls == old(calls)
    {
      if container == None {
        return;
      }
      var rect := container.value;
      var centerX := rect.left + block.position.x + block.size.width / 2.0;
      var centerY := rect.top + block.position.y + block.size.height / 2.0;
      var pointerAngle := atan2(e.clientY - centerY, e.clientX - centerX);
      startPointerAngleRad := Some(pointerAngle);
      startAngleDeg := block.angle.GetOr(0.0);
      rotatingBlock := Some(block);
    }

    /**
     * Pointer-move: when rotating with a start angle and a container, only
     * the live block's angle changes.
     */
    method HandlePointerMove(e: PointerEvent, container: Option<Rect>)
      modifies this
      ensures (old(rotatingBlock) == None || old(startPointerAngleRad) == None || container == None)
              ==> unchanged(this)
      ensures old(rotatingBlock).Some? && old(startPointerAngleRad).Some? && container.Some? ==>
        var was := old(rotatingBlock).value;
        var current := PointerAngle(atan2, e, container.value, was);
        && rotatingBlock.Some?
        && rotatingBlock.value.angle == Some(NextAngle(old(startAngleDeg), old(startPointerAngleRad).value, current))
        && rotatingBlock.value.id == was.id
        && rotatingBlock.value.position == was.position
        && rotatingBlock.value.size == was.size
        && startPointerAngleRad == old(startPointerAngleRad)
        && startAngleDeg == old(startAngleDeg) && calls == old(calls)
    {
      if rotatingBlock == None || startPointerAngleRad == None {
        return;
      }
      if container == None {
        return;
      }
      var block := rotatingBlock.value;
      var rect := container.value;
      var centerX := rect.left + block.position.x + block.size.width / 2.0;
      var centerY := rect.top + block.position.y + block.size.height / 2.0;
      var currentAngleRad := atan2(e.clientY - centerY, e.clientX - centerX);
      var deltaRad := currentAngleRad - startPointerAngleRad.value;
      var deltaDeg := (deltaRad * 180.0) / Pi;
      var nextDeg := startAngleDeg + deltaDeg;
      rotatingBlock := Some(block.(angle := Some(nextDeg)));
    }

    /**
     * Pointer-up: when rotating, clear the live state, resolve without any
     * bound check, animate, commit the rotated block once, and run the
     * detection pass on the committed set when detection is enabled.
     */
    method HandlePointerUp(workBlocks: seq<Block>)
      modifies this, store
      ensures old(rotatingBlock) == None ==> unchanged(this) && unchanged(store)
      ensures old(rotatingBlock).Some? ==>
        var block := old(rotatingBlock).value;
        var r := ResolveCollision(block, workBlocks);
        && rotatingBlock == None && startPointerAngleRad == None && startAngleDeg == old(startAngleDeg)
        && calls == old(calls) + [Animate(r.newBlocks, r.sortedBlocks), Commit(block)]
      ensures !enableCollision ==> unchanged(store)
      ensures old(rotatingBlock).Some? && enableCollision && NoDuplicates(old(store.ids)) ==>
        var r := ResolveCollision(old(rotatingBlock).value, workBlocks);
        && NoDuplicates(store.ids)
        && (forall x :: x in store.ids <==> InCollision(r.sortedBlocks, dispatch, collisionType, x))
        && store.listeners == old(store.listeners)
      ensures old(rotatingBlock).Some? && enableCollision ==>
        var r := ResolveCollision(old(rotatingBlock).value, workBlocks);
        && store.listeners == old(store.listeners)
        && ((store.ids == old(store.ids) && store.calls == old(store.calls))
            || (&& NoDuplicates(store.ids)
                && (forall x :: x in store.ids <==> InCollision(r.sortedBlocks, dispatch, collisionType, x))
                && |old(store.calls)| <= |store.calls|
                && store.calls[..|old(store.calls)|] == old(store.calls)
                && multiset(store.calls[|old(store.calls)|..]) == multiset(store.listeners)))
      ensures old(rotatingBlock).Some? && enableCollision && NoDuplicates(old(store.ids))
              && (forall x :: x in old(store.ids) <==>
                    InCollision(ResolveCollision(old(rotatingBlock).value, workBlocks).sortedBlocks,
                                dispatch, collisionType, x))
              ==> store.ids == old(store.ids) && store.calls == old(store.calls)
    {
      if rotatingBlock == None {
        return;
      }
      var block := rotatingBlock.value;
      rotatingBlock := None;
      startPointerAngleRad := None;
      var resolved := ResolveCollision(block, workBlocks);
      calls := calls + [Animate(resolved.newBlocks, resolved.sortedBlocks)];
      calls := calls + [Commit(resolved.updatedBlock)];
      if enableCollision {
        var collidedIds := store.ids;
        var result := ComputeCollisions(resolved.sortedBlocks, Some(collisionType), dispatch, store, collidedIds);
        if NoDuplicates(collidedIds) && (forall x :: x in collidedIds <==> x in result) {
          SuppressionIsSetEquality(collidedIds, result);
        }
        if SameIds(collidedIds, result) && NoDuplicates(collidedIds) {
          SuppressionIsSetEquality(collidedIds, result);
          forall x ensures x in store.ids <==> x in result {
            assert x in store.ids <==> x in IdSet(collidedIds);
            assert x in result <==> x in IdSet(result);
          }
        }
      }
    }
  }
}
