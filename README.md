# GameScene step model

A Dafny model of the per-frame logic of `GameScene` in `src/main.js`, a small
top-down Phaser game. A blue square player walks around a 1024×768 town with the
arrow keys or WASD, and can talk to a cat that sits at (200, 300) by pressing
Space nearby. The scene's own logic is `update()`, which runs once per frame,
plus the two helpers it calls, `showDialog` and `hideDialog`.

The project has three modules:

- `Geometry` (`geometry.dfy`) restates the two Phaser.Math helpers that
  `update()` calls. `Clamp` is `Math.max(lo, Math.min(hi, v))`.
  `Distance.Between` is replaced by the squared distance: the test
  `sqrt(dx²+dy²) < 60` is exactly `dx²+dy² < 3600`, and the lemma
  `WithinIsDistanceBelow` proves this over the reals. `Within` is that integer
  test, and `Scene.NearCat` applies it to the player and the cat.
- `Scene` (`game_scene.dfy`) holds the frame's inputs, the state, and the step.
  - `Input` is one frame's keyboard snapshot: eight held flags (arrows and WASD,
    OR'd per direction) and Space's "just down" edge.
  - `SceneState` is the value that `update()` reads and writes.
  - `Step` is one call of `update()` as a function.
  - `SpaceRead` says whether that call asks Phaser for Space's edge. Asking
    consumes the edge, and the open test asks for it only when the player is
    near the cat.
  - The class `GameScene` has the fields that `update()` reads and writes,
    plus the cat's position from `create()`. Its methods
    `Update`, `ShowDialog` and `HideDialog` follow the source statement by
    statement. Each one's postcondition ties the new state to `Step`, `Show` or
    `Hide` applied to the old state.
- `Session` (`session.dfy`) runs `Step` over a sequence of frames. It proves by
  induction what holds across any number of frames: the player stays in bounds,
  an open dialog freezes the player, idling changes nothing, and walking right
  reaches the right edge.

Positions are `int`. The source's positions start at integers and only change
by ±6 or through clamping to integer bounds, so JavaScript's double arithmetic
stays exact on every reachable state.

## Model

| member | source | states |
|---|---|---|
| Geometry.Clamp | src/main.js:107-108 | The result lies in [lo, hi], equals v when v is already inside, and equals the nearer bound otherwise; with crossed bounds (lo > hi) it is lo, as `Math.max(lo, Math.min(hi, v))` gives. |
| Geometry.DistanceSquared | src/main.js:111-116 | The squared distance is non-negative and is zero exactly when the two points coincide. |
| Geometry.Within | src/main.js:111-118 | The squared distance is below radius²; by WithinIsDistanceBelow this is exactly `Distance.Between(...) < radius`. A point within the radius differs from the other by less than radius on each axis, and a point is within a positive radius of itself. |
| Geometry.WithinIsDistanceBelow | src/main.js:111-118 | For the non-negative square root r of the squared distance, `r < radius` holds exactly when the integer test `d < radius²` does, so dropping `sqrt` changes no outcome. |
| Scene.AxisDelta | src/main.js:87-104 | One axis moves by -6, 0 or +6. It moves negatively exactly when the negative key is held, so left beats right and up beats down. It moves positively exactly when only the positive key is held. |
| Scene.NearCat | src/main.js:111-118 | The player is strictly within 60 of the cat at (200,300), so x lies in (140,260) and y in (240,360); the cat's own position is near it. |
| Scene.Show | src/main.js:123-128 | showDialog(t) sets the flag, stores t, and leaves the position alone. |
| Scene.Hide | src/main.js:130-134 | hideDialog clears the flag and keeps the stored text and the position. |
| Scene.Move | src/main.js:86-108 | After moving and clamping, the player is in [16,1008]×[16,752]. Away from the edges, each axis changes by exactly its displacement, and a step past an edge stops exactly on that edge. An in-bounds player moves at most 6 per axis, and never rightward while left is held or downward while up is held. |
| Scene.Step | src/main.js:77-121 | While the dialog shows, the position and text stay fixed and the dialog closes exactly when Space was just pressed (the early return). Otherwise the player moves, ends in bounds, and the dialog opens exactly when the clamped position is within 60 of the cat and Space was just pressed. When it opens, it shows "Hey kid... don't bother me.". The text changes only when the dialog opens. |
| Scene.SpaceRead | src/main.js:78-118 | The close branch always reads Space's edge; the open branch reads it only when the moved player is near the cat. An edge that is not read has no effect on the frame. |
| Scene.AxesIndependent | src/main.js:90-104 | The new x depends only on the left/right flags and the new y only on the up/down flags. |
| Scene.DiagonalMove | src/main.js:90-104 | Away from the edges, holding one horizontal and one vertical direction changes both coordinates by a full 6: diagonals are not normalised. |
| Scene.HideAfterShow | src/main.js:123-134 | hideDialog after showDialog(t) on a hidden scene gives back the hidden scene, with t as the stored text. |
| Scene.GameScene.constructor | src/main.js:6-41 | The scene starts with the player at (512,384), the cat at (200,300), the dialog hidden and its text empty. |
| Scene.GameScene.ShowDialog | src/main.js:123-128 | The object's new state is `Show` of its old state; it writes only the flag and the text, so the object invariant is kept. |
| Scene.GameScene.HideDialog | src/main.js:130-134 | The object's new state is `Hide` of its old state; it writes only the flag, so the object invariant is kept. |
| Scene.GameScene.Update | src/main.js:77-121 | The object's new state is `Step` of its old state, and the returned flag is `SpaceRead`. The cat's position is left unchanged, and the object invariant is kept: cat at (200,300), player in bounds. |
| Session.RunStaysConsistent | src/main.js:77-121 | Over any number of frames, a state that is in bounds, and that shows the cat's line whenever the dialog shows, stays that way. |
| Session.ReachableConsistent | src/main.js:38-121 | Every state reachable from the spawn state is in bounds and shows only the cat's line. |
| Session.DialogFreezes | src/main.js:78-84 | While the dialog shows and Space is not pressed, any number of frames leave the whole state unchanged, whatever direction keys are held. |
| Session.IdleStaysPut | src/main.js:86-108 | An in-bounds player with the dialog hidden and no key held stays exactly where it is for any number of frames. |
| Session.WalkRight | src/main.js:90-108 | Holding right for n frames from an in-bounds state with the dialog hidden gives x = min(x + 6n, 1008), and nothing else changes. |
| Session.WalkRightFromSpawn | src/main.js:38-108 | From the spawn point, n frames of right reach x = min(512 + 6n, 1008) with y = 384. |

## Left out

- Asset loading, the background, the houses, the instruction text, text styles and the dialog box's stroke (`preload` and most of `create`) are left out. They are rendering and hold no state that the step reads.
- The `setVisible` calls are left out. They mirror `isShowingDialog` on the dialog box and text objects, so only the flag and the stored text are modelled.
- Keyboard object construction and Phaser's `isDown`/`JustDown` bookkeeping are left out. Input is a per-frame snapshot of booleans. Consuming the Space edge is modelled only as the `spaceRead` result of `Update`; the Dafny does not carry a latched edge from one frame to the next.
- The `Phaser.Game` configuration and the game loop that calls `update()` every frame are engine plumbing. `Session.Run` stands for the loop calling `update()` on a sequence of snapshots.
- The unused `moved` local in `update()` is left out because it has no observable effect.
- Floating-point positions and `Math.sqrt` are left out. Reachable positions are small integers, and the squared-distance test is proved equivalent to the root test.
- Scene.GameScene.Update: requires the object invariant (`Valid()`: cat at (200,300), player in bounds), which `create()` establishes before Phaser ever calls `update()`. The position part is not needed for `update()` to run; it is there because it is the invariant the method keeps.
