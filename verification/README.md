# QuokkaGame scene controller in Dafny

A model of the controller at the heart of QuokkaGame, a one-screen side-scrolling
game in which a wallaby runs over recycled pillars and the player charges a jump by
holding the screen. The controller (`GameScene`) owns a handful of scalar fields and
changes them on three kinds of event:

- **touch-down / touch-up / touch-cancel** — the charge-jump state machine
  (`isJumping`, `isChargingJump`, the optional touch start time). An allowed release
  clamps the hold time into the charge window [0.05 s, 0.8 s], normalises it to a
  fraction t in [0, 1] and interpolates the impulse per axis between (30, 300) and
  (50, 500);
- **the per-frame update** — scroll speed and jump-power multiplier progression,
  scrolling of the world node, recycling of the five pillars to the right edge of the
  screen, and the landing test against the first pillar;
- **appearing on screen** — scrolling the world to its start, laying out the pillar
  pool and placing the wallaby.

All `CGFloat` / `TimeInterval` values are exact `real`s. The scene is an immutable
`Scene` record and every event is a pure function from scene to scene. The physics
engine is outside the model: the impulse a release applies is returned as an
`Optional<Vector>`, and the wallaby's height is an input to each frame. The touch's
timestamp (`touches.first?.timestamp`) is an `Optional<real>` input, and the wall clock
read when a release carries no timestamp is the `now` parameter.

Files: `tuning.dfy` (the constants), `impulse.dfy` (hold time to impulse, and its
inverse), `track.dfy` (pillars, recycling, layout), `game_scene.dfy` (scene state,
events, invariant, multi-frame runs), and the helpers `optional.dfy` (Swift optionals and `??`) and
`reals.dfy` (min/max).

Behaviour of the code that is easy to misread, and which the model keeps as written:

- a touch-down while a charge is already in progress (and the wallaby is on the ground)
  restarts the charge with the new touch's timestamp; it is not ignored;
- a 0.4 s hold gives (118/3, 1180/3), not (40, 400): the middle of the charge window is
  0.425 s (`Impulse.FourTenthsImpulse`, `Impulse.MidpointImpulse`);
- touch-cancel is routed through the release handler, so cancelling a charge launches
  the wallaby exactly like a release does.

## Model

| member | source | states |
|---|---|---|
| Impulse.ClampDuration | QuokkaGame/GameScene.swift:86 | the clamped hold lies in [0.05, 0.8]; it equals the hold exactly when the hold is inside the window, and is the nearer bound otherwise |
| Impulse.ChargeFraction | QuokkaGame/GameScene.swift:89 | the normalised fraction lies in [0, 1]; it is 0 exactly for holds of at most 0.05 s and 1 exactly for holds of at least 0.8 s |
| Impulse.ImpulseFor | QuokkaGame/GameScene.swift:86-94 | every impulse has dx in [30, 50] and dy in [300, 500]; holds of at most 0.05 s give exactly (30, 300), holds of at least 0.8 s exactly (50, 500); dy is always ten times dx |
| Impulse.ImpulseRecoversHold | QuokkaGame/GameScene.swift:86-93 | the clamped hold can be read back from the impulse it produced, so distinct holds inside the window give distinct impulses |
| Impulse.ImpulseReachesEvery | QuokkaGame/GameScene.swift:89-93 | every impulse (dx, 10·dx) with dx in [30, 50] is produced by some hold inside the window |
| Impulse.ImpulseMonotone | QuokkaGame/GameScene.swift:86-93 | a longer hold never gives a smaller impulse on either axis |
| Impulse.ImpulseStrictInWindow | QuokkaGame/GameScene.swift:86-93 | inside the charge window a longer hold gives a strictly larger impulse on both axes |
| Impulse.MidpointImpulse | QuokkaGame/GameScene.swift:23-26 | the middle of the charge window is 0.425 s and it gives (40, 400), the mean of the two extreme impulses |
| Impulse.FourTenthsImpulse | QuokkaGame/GameScene.swift:86-93 | a 0.4 s hold gives (118/3, 1180/3) |
| Track.Recycle | QuokkaGame/GameScene.swift:118-128 | a pillar whose screen x is below -80 moves so that its screen x becomes the view width plus 180; any other pillar is unchanged; y never changes |
| Track.RecycleAll | QuokkaGame/GameScene.swift:116-129 | the pass keeps the pool size and every pillar's y, moves each off-screen pillar to one spacing past the right edge in the same frame, and leaves every other pillar unchanged |
| Track.RecycleLeavesNoneOffScreen | QuokkaGame/GameScene.swift:116-129 | for a non-negative view width no pillar is past the left edge after a pass, and every recycled pillar has a positive screen x |
| Track.RecycleIdempotent | QuokkaGame/GameScene.swift:116-129 | a second pass at the same scroll position changes nothing |
| Track.Layout | QuokkaGame/GameScene.swift:34-45 | the initial pool has 5 pillars on y = 150, the first at x = view width, each next one 180 further right |
| Track.LayoutPositions | QuokkaGame/GameScene.swift:37-40 | any pool that starts at the view width and keeps the 180 spacing has pillar i at view width + i·180 |
| GameScene.Initial | QuokkaGame/GameScene.swift:12-22 | a new scene is grounded, not charging, has no start time, speed 2.0, multiplier 1.0 and an empty pool |
| GameScene.RecycleKeepsGround | QuokkaGame/GameScene.swift:116-132 | the landing threshold read after the recycling pass is the one before it: recycling never moves the ground |
| GameScene.ValidGroundLevel | QuokkaGame/GameScene.swift:131-132 | once the scene is on screen the landing threshold is the fixed height 340 (base line 150, half a pillar 150, clearance 40) |
| GameScene.DidMove | QuokkaGame/GameScene.swift:28-51 | the world is scrolled to -500, the laid-out pool is appended, the touch and progression state is kept, and the wallaby spawns at x = 780 exactly on the ground level |
| GameScene.TouchesBegan | QuokkaGame/GameScene.swift:65-71 | on the ground a touch-down starts a charge stamped with the touch's time; while jumping the scene is left exactly unchanged; the world is never touched |
| GameScene.TouchesEnded | QuokkaGame/GameScene.swift:73-100 | an impulse is applied exactly when charging and not jumping; then the wallaby jumps with the impulse for end time minus start time, or the minimum impulse when no start time was recorded; otherwise isJumping is kept; the charge and start time are always cleared; the world is never touched |
| GameScene.TouchesCancelled | QuokkaGame/GameScene.swift:102-104 | a cancel launches under the same condition as a release, with the same impulse (the one for end time minus start time, or the minimum without a start time), and clears the charge the same way |
| GameScene.CancelIsRelease | QuokkaGame/GameScene.swift:102-104 | a cancel and a release with the same stamps produce exactly the same scene and impulse |
| GameScene.Update | QuokkaGame/GameScene.swift:106-139 | speed grows by exactly 0.002 and the world moves left by the new speed; the multiplier grows by 0.0008 while that stays within 1.4, becomes exactly 1.4 otherwise, and does not fall exactly when it started at or below 1.4; pillars are recycled against the new world position; a wallaby at or below the ground level lands, clearing the start time only when not charging; the charge flag is never changed |
| GameScene.DidMoveEstablishesValid | QuokkaGame/GameScene.swift:12-45 | a freshly shown scene satisfies the invariant and holds exactly the initial layout |
| GameScene.TransitionsPreserveValid | QuokkaGame/GameScene.swift:65-139 | touch-down, touch-up, touch-cancel and the frame update all keep the invariant (charge only on the ground, start time only while charging, positive speed, multiplier in [1.0, 1.4], 5 pillars on the base line) |
| GameScene.ReleaseLaunchesIffCharging | QuokkaGame/GameScene.swift:73-79 | within the invariant a release launches exactly when a charge is in progress |
| GameScene.AirborneTouchIgnored | QuokkaGame/GameScene.swift:65-79 | a press and release while jumping applies no impulse and only clears the charge |
| GameScene.GroundedTapLaunches | QuokkaGame/GameScene.swift:65-100 | a grounded press at t0 and release at t1 applies the impulse for t1 - t0 and leaves the wallaby jumping with no charge |
| GameScene.RunScroll | QuokkaGame/GameScene.swift:106-114 | after n frames from speed v the speed is v + n·0.002 and the world has moved left by n·v + 0.001·n·(n+1), each frame moving by the already increased speed |
| GameScene.RunKeepsValid | QuokkaGame/GameScene.swift:106-139 | over any number of frames the invariant holds throughout and the multiplier neither falls nor passes 1.4 |
| GameScene.RunMultiplier | QuokkaGame/GameScene.swift:107-111 | after n frames from at most 1.4 the multiplier is min(m + n·0.0008, 1.4) |

## Left out

- Scene construction in `didMove` other than the world position, the pillar positions and the wallaby's spawn point: background colour, node tree, sprite scaling, physics bodies and gravity are rendering and engine set-up.
- The physics simulation: how the impulse moves the wallaby, gravity, collisions. The impulse is returned instead of applied, and the wallaby's height is a per-frame input.
- The wall clock read when a release has no touch timestamp is the `now` parameter rather than a clock read.
- Floating-point rounding of `CGFloat` / `TimeInterval`: every bound and endpoint is stated over exact reals.
- GameScene.DidMove: it is meaningful only on the scene from `Initial()`. Called on a scene already on screen it appends a second layout, while the code fails earlier because the world node already has a parent.
- `ContentView.swift` is SwiftUI glue that presents the scene and is not part of this model.
- The frame's `currentTime` argument is unused by the update and is not a parameter.
- The jump-power multiplier is modelled as progressed state only; like the code, nothing applies it to the impulse.
