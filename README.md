# Block collision and gesture resolution, modelled in Dafny

This project models the collision and gesture layer of a React drag-and-drop
library for rectangular blocks. Blocks have an id, a top-left position, a size
and an optional angle. The model covers five parts:

- the axis-aligned collision test and the post-gesture resolver (`CollisionUtils`);
- replace-by-id over a working set (`BlockUtils`);
- the observable store of colliding ids (`CollisionStore`);
- the pairwise detection pass with change suppression (`CollisionDetection`);
- the drag gesture controller (`DragBlock`) and the rotate gesture controller (`RotateBlock`).

Coordinates and angles are `real`. Pure code is written as functions and
lemmas. The store and the two controllers are classes whose fields are the
source's state variables. The detection pass is a method with the source's
nested loop. Calls the controllers make into the host, the animated transition
and the commit callback, are appended to a `calls` log, so their order and
arguments can be stated.

Definitions without a contract of their own are described by the lemmas about
them:

- `CollisionUtils.HasCollision` is the centre-distance test of
  `src/utils/collisionUtils.ts:8-25`.
- `DragBlock.GetContainerCoords`, `DragOffsetFor` and `CandidatePosition` are the
  coordinate arithmetic of `src/hooks/useDragBlock.ts:47-54`, `61-64` and `79-82`.
- `RotateBlock.PointerAngle` and `NextAngle` are the angle arithmetic of
  `src/hooks/useRotateBlock.ts:45-47` and `60-70`.

`src/hooks/useDragBlock.ts:18-26` repeats `getNewBlocks` word for word, so the
model defines it once, as `BlockUtils.GetNewBlocks`.

Without a container the drag anchor and the pointer fall back differently.
`getContainerCoords` gives the origin, but the anchor offset keeps the client
point (`rect?.left ?? 0`). The model reproduces this as written.
`DragBlock.AnchorWithoutContainer` shows the resulting round trip missing by the
client point.

The change-suppression check compares lengths and inclusion. That matches set
equality only when the previous snapshot has no repeated ids
(`CollisionDetection.SuppressionIsSetEquality`). `SuppressionWithRepeatedIds`
shows the gap: `[1, 1]` passes against `[1, 2]`. The detection pass never
publishes repeats. Only a host writing the store directly can create them.

Where the design description and the code differ, the model follows the code:

- At the end of a drag, the shown code runs no detection pass. It also leaves
  the collision store alone when it reverts.
- The animator is called as `animateBlocksTransition(getNewBlocks(workBlocks, dragged), workBlocks)`
  on revert and as `(newBlocks, sortedBlocks)` on commit. `HostCall.Animate`
  records the two arguments in that call order.
- The store is a caller-owned object rather than a module-level singleton. Its
  behaviour is the same.

## Model

| member | source | states |
|---|---|---|
| `BlockUtils.GetNewBlocks` | src/utils/blockUtils.ts:3-14 | same length as the input; a block whose id differs from the current block stays at its index; every block with the current id becomes the current block |
| `BlockUtils.GetNewBlocksKeepsIds` | src/utils/blockUtils.ts:7-13 | the id sequence of the result equals that of the input |
| `BlockUtils.GetNewBlocksAbsentId` | src/utils/blockUtils.ts:7-13 | when no block has the current id, the result equals the input |
| `BlockUtils.GetNewBlocksIdempotent` | src/utils/blockUtils.ts:7-13 | replacing a second time with the same block changes nothing |
| `BlockUtils.GetNewBlocksContainsCurrent` | src/utils/blockUtils.ts:7-13 | the current block appears in the result exactly when its id appears in the input |
| `CollisionUtils.HasCollisionIsStrictOverlap` | src/utils/collisionUtils.ts:8-25 | the centre-distance test holds exactly when `a.x < b.x + b.w`, `b.x < a.x + a.w` and the same two inequalities on y all hold, for any sizes |
| `CollisionUtils.HasCollisionSymmetric` | src/utils/collisionUtils.ts:12-24 | swapping the two blocks gives the same answer |
| `CollisionUtils.EdgeContactIsNoCollision` | src/utils/collisionUtils.ts:21-24 | blocks meeting only at a vertical or horizontal edge do not collide, in either order (strict `<`) |
| `CollisionUtils.RectangleExamples` | src/__tests__/collisionUtils.test.ts:15-31 | the library's rectangle cases: 10 apart is false, a 25 x 25 overlap is true, touching at x = 50 is false |
| `CollisionUtils.HasCollisionWithOthers` | src/utils/collisionUtils.ts:27-36 | true exactly when some block whose id is not `draggingBlockId` collides with the dragging block; same-id blocks never count |
| `CollisionUtils.OthersOf` | src/utils/collisionUtils.ts:57 | keeps exactly the blocks whose id differs from the active id, and is no longer than the input |
| `CollisionUtils.OthersFilterIsRedundant` | src/utils/collisionUtils.ts:57-61 | the conflict test gives the same answer on the filtered and unfiltered working set |
| `CollisionUtils.ResolveCollision` | src/utils/collisionUtils.ts:51-85 | in both branches the updated block is the active block unchanged; `sortedBlocks` and `newBlocks` both equal the replace-by-id of the working set; the ids and length of the working set are kept |
| `CollisionUtils.ResolveCollisionCommits` | src/utils/collisionUtils.ts:59-84 | at each index the committed set holds the updated block when the index has the active id, and the original block otherwise |
| `CollisionUtils.ResolveCollisionIdempotent` | src/utils/collisionUtils.ts:51-85 | resolving the updated block against the committed set returns the same result |
| `CollisionStore.Store.constructor` | src/store/collisionStore.ts:3-4 | starts with no ids, no listeners and no calls |
| `CollisionStore.Store.GetCollisionIds` | src/store/collisionStore.ts:10 | returns the current ids and changes nothing |
| `CollisionStore.Store.Emit` | src/store/collisionStore.ts:6-8 | appends to the call log each subscribed listener exactly once and keeps the earlier log |
| `CollisionStore.Store.SetCollisionIds` | src/store/collisionStore.ts:12-15 | afterwards the ids are `next`, the listeners are unchanged and each of them has been called exactly once |
| `CollisionStore.Store.SubscribeCollisionIds` | src/store/collisionStore.ts:17-19 | adds the listener to the set; subscribing it again keeps one entry |
| `CollisionStore.Store.Unsubscribe` | src/store/collisionStore.ts:19-21 | removes the listener, so later writes do not call it |
| `CollisionDetection.AddId` | src/hooks/useCollisionDetection.ts:11-20 | adding to an insertion-ordered set keeps it duplicate-free, adds exactly the id and keeps earlier entries in order |
| `CollisionDetection.CollidingIds` | src/hooks/useCollisionDetection.ts:9-20 | the i < j scan returns a duplicate-free list holding exactly the ids of blocks in a colliding pair, in the given mode or rectangle by default; fewer than two blocks give an empty list |
| `CollisionDetection.ComputeCollisions` | src/hooks/useCollisionDetection.ts:9-29 | returns the fresh result on both paths; when the previous ids have the same length and are all in the result, the store is not touched; otherwise the store holds exactly the result and its listeners were notified once each |
| `CollisionDetection.PairIdsReported` | src/hooks/useCollisionDetection.ts:12-18 | completeness: both ids of every colliding pair i < j are reported |
| `CollisionDetection.InCollisionIffCollidesWithAnother` | src/hooks/useCollisionDetection.ts:12-18 | for a symmetric test, an id is reported exactly when its block collides with a block at another index |
| `CollisionDetection.SuppressionIsSetEquality` | src/hooks/useCollisionDetection.ts:21-26 | for duplicate-free lists the suppression check holds exactly when both hold the same ids |
| `CollisionDetection.SuppressionWithRepeatedIds` | src/hooks/useCollisionDetection.ts:21-24 | a snapshot with a repeated id, `[1, 1]`, passes the check against `[1, 2]` although the ids differ |
| `CollisionDetection.DetectionExamples` | src/__tests__/useCollisionDetection.test.tsx:39-58 | with the rectangle test as default mode: overlapping blocks 1 and 2 report exactly `{1, 2}`, blocks 10 apart report nothing |
| `DragBlock.ContainerCoordsInverse` | src/hooks/useDragBlock.ts:47-54 | without a container the coordinates are the origin; with one, adding the container's corner gives back the client point |
| `DragBlock.DragOffsetFromCoords` | src/hooks/useDragBlock.ts:58-64 | with a container, the anchor is the container-local pointer plus scroll offset on x, minus the block position; y has no scroll term |
| `DragBlock.AnchorRoundTrip` | src/hooks/useDragBlock.ts:58-82 | a move at the pointer-down's client point, with the same rectangle and scroll offset, proposes the block's original position before snapping |
| `DragBlock.AnchorWithoutContainer` | src/hooks/useDragBlock.ts:47-64 | without a container, pointer (100, 100) on a block at (10, 10) proposes (-90, -90) |
| `DragBlock.CandidateFollowsPointer` | src/hooks/useDragBlock.ts:76-82 | moving the pointer by (dx, dy) moves the unsnapped candidate by (dx, dy) |
| `DragBlock.DragController.constructor` | src/hooks/useDragBlock.ts:35-41 | idle: no dragging block, no pointer position, zero offset, no calls |
| `DragBlock.DragController.HandleStartDrag` | src/hooks/useDragBlock.ts:56-70 | the dragging block is `block`, the pointer position is the container coordinates, the offset is the captured anchor; no host call |
| `DragBlock.DragController.HandlePointerMove` | src/hooks/useDragBlock.ts:72-96 | no-op when idle; otherwise only the live block's position (to the snapped candidate) and the pointer position change; id, size, angle and offset are kept |
| `DragBlock.DragController.HandleEndDrag` | src/hooks/useDragBlock.ts:98-142 | no-op when idle; otherwise clears the live block and pointer; out of bounds it animates `(getNewBlocks(workBlocks, dragged), workBlocks)` and commits nothing; in bounds it animates the resolved sets and commits the dragged block exactly once |
| `RotateBlock.CollisionOptionDefaults` | src/hooks/useRotateBlock.ts:26-31 | detection is off and the mode is OBB unless the options say otherwise, field by field |
| `RotateBlock.NextAngleAtStart` | src/hooks/useRotateBlock.ts:68-70 | a pointer back at its start angle gives the start angle |
| `RotateBlock.AngleIsNotNormalised` | src/hooks/useRotateBlock.ts:68-72 | the angle is not normalised: a quarter turn from 350 degrees gives 440, not 80 |
| `RotateBlock.TurnWithinOneGesture` | src/hooks/useRotateBlock.ts:64-70 | with both pointer angles in the range of `atan2`, [-pi, pi], the new angle is within 360 degrees of the start angle either way |
| `RotateBlock.RotateController.constructor` | src/hooks/useRotateBlock.ts:20-39 | idle, start angle 0, and detection switch and mode taken from the options with their defaults |
| `RotateBlock.RotateController.HandleStartRotate` | src/hooks/useRotateBlock.ts:41-53 | nothing happens without a container; otherwise it records the pointer angle, the start angle `block.angle ?? 0` and the rotating block |
| `RotateBlock.RotateController.HandlePointerMove` | src/hooks/useRotateBlock.ts:55-75 | no-op when idle, without a start angle or without a container; otherwise only the live block's angle changes, to the start angle plus the turn in degrees |
| `RotateBlock.RotateController.HandlePointerUp` | src/hooks/useRotateBlock.ts:77-108 | no-op when idle; otherwise clears the live block and the start pointer angle (the start angle in degrees is kept), animates the resolved sets and commits the rotated block exactly once with no bound check; the store is untouched unless detection is enabled; then, when the previous ids are duplicate-free and already exactly the colliding ids of the committed set, the write and the notifications are skipped; in every case its listeners are kept and either the store is left as it was (ids and notifications) or it holds exactly the ids colliding in the committed set, without repeats, and every listener was notified once; with a duplicate-free previous snapshot it always ends holding exactly those ids |

## Left out

- Circle and OBB collision: the three-way `hasCollision(a, b, mode)` is not part of this model. The detection pass takes it as a `Dispatcher` parameter. The rectangle branch is tied to `HasCollision` only where a lemma requires it (`RectangleIsAabb`).
- `isInBound`, `snapPositionToGrid`: their bodies are not part of this model. They are function-valued fields of `DragController`.
- The bound check receives the container's bounding rectangle (`Option<Rect>`) where the source passes the container element itself. The element's client width and height, which the bound check reads, are not modelled.
- `animateBlocksTransition` (`useBlocksTransition`): animation frames and timing are not modelled. Each call is recorded as a `HostCall.Animate` with its two arguments.
- `useSetPointerEvents`: global listener registration is not modelled. The handlers are methods the host calls.
- `useSyncExternalStore` / `useCollisionIds`: React's re-rendering on store change is not modelled. `ComputeCollisions` takes the rendered snapshot `collidedIds` as a parameter. The rotate controller passes the store's current ids.
- React state timing: a handler reads the controller's current fields, not a closure captured at the last render.
- `Emit`: listeners are called in an unspecified order. The source calls them in subscription order.
- `subscribeCollisionIds` returns a closure; the model exposes its effect as the method `Unsubscribe`.
- `Math.atan2` is an uninterpreted function-valued field. `Math.PI` is the decimal literal of the double. Floating-point rounding is not modelled; all arithmetic is exact over the reals.
- `resolveCollision` receives `containerRef`, `scrollOffset` and, from the rotate controller, `collisionType`; the shown resolver reads none of them, so `ResolveCollision` takes only the active block and working set.
- `DragBlock.AnchorRoundTrip`: stated only with a container attached, because without one the source's two fallbacks disagree (see `AnchorWithoutContainer`).
- `RotateBlock.RotateController.HandlePointerUp`: that the store ends holding exactly the colliding ids is stated only when the previous ids hold no repeats, because with repeats the length-and-inclusion check can skip a needed write (see `SuppressionWithRepeatedIds`); in that case the contract says only that the store is either unchanged or freshly written and notified.
- Collision options: the rotate controller fixes `enableCollision` and `collisionType` when it is constructed. The source recomputes them from its options on every render, so a change of options during the controller's life is not modelled.
