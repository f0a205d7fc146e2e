/** The game scene controller: the charge-jump state machine driven by touch
    events, and the per-frame update that scrolls the world, advances the
    difficulty progression, recycles pillars and detects landing. */
module GameScene {
  import opened Optional
  import opened Reals
  import opened Tuning
  import opened Impulse
  import opened Track

  /** The scene's mutable fields. `worldX` is the world node's horizontal position
      (it decreases as the world scrolls left). */
  datatype Scene = Scene(
    isJumping: bool,
    isChargingJump: bool,
    touchStartTime: Optional<real>,
    scrollSpeed: real,
    jumpPowerMultiplier: real,
    worldX: real,
    pillars: seq<Pillar>)

  /** What a release yields: the new scene and the impulse applied to the wallaby, if any. */
  datatype Release = Release(scene: Scene, impulse: Optional<Vector>)

  /** What appearing on screen yields: the new scene and the wallaby's spawn point. */
  datatype Staging = Staging(scene: Scene, spawnX: real, spawnY: real)

  /** The scene as constructed, before it is shown. */
  function Initial(): (s: Scene)
    ensures !s.isJumping && !s.isChargingJump && s.touchStartTime.Absent?
    ensures s.scrollSpeed == InitialScrollSpeed && s.jumpPowerMultiplier == InitialJumpPower
    ensures s.worldX == 0.0 && s.pillars == []
  {
    Scene(false, false, Absent, InitialScrollSpeed, InitialJumpPower, 0.0, [])
  }

  /** Touch-driven fields aside, two scenes agree on everything the world holds. */
  predicate SameWorld(a: Scene, b: Scene)
  {
    && a.scrollSpeed == b.scrollSpeed
    && a.jumpPowerMultiplier == b.jumpPowerMultiplier
    && a.worldX == b.worldX
    && a.pillars == b.pillars
  }

  /** The height at or below which the wallaby counts as landed: the top of the first
      pillar plus the clearance. There is none while the pool is empty. */
  function GroundLevel(ps: seq<Pillar>): (g: Optional<real>)
  {
    if |ps| == 0 then Absent else Present(ps[0].y + PillarHeight / 2.0 + GroundClearance)
  }

  predicate Landed(ps: seq<Pillar>, wallabyY: real)
  {
    GroundLevel(ps).Present? && wallabyY <= GroundLevel(ps).value
  }

  /** Recycling moves pillars only sideways, so it never moves the ground. */
  lemma RecycleKeepsGround(ps: seq<Pillar>, worldX: real, viewWidth: real)
    ensures GroundLevel(RecycleAll(ps, worldX, viewWidth)) == GroundLevel(ps)
  {
  }

  /** Once the scene is on screen the landing threshold is the fixed height 340:
      the base line, half a pillar, and the clearance. */
  lemma ValidGroundLevel(s: Scene)
    requires Valid(s)
    ensures GroundLevel(s.pillars) == Present(340.0)
  {
  }

  /** The scene appears: the world is scrolled to its start, the pillar pool is laid out
      after whatever the pool held, and the wallaby is placed on the first pillar's ground level. */
  function DidMove(s: Scene, viewWidth: real): (r: Staging)
    ensures r.scene.worldX == -InitialScroll
    ensures r.scene.pillars == s.pillars + Layout(viewWidth)
    ensures r.scene.isJumping == s.isJumping && r.scene.isChargingJump == s.isChargingJump
    ensures r.scene.touchStartTime == s.touchStartTime
    ensures r.scene.scrollSpeed == s.scrollSpeed && r.scene.jumpPowerMultiplier == s.jumpPowerMultiplier
    ensures r.spawnX == WallabySpawnX
    ensures Landed(r.scene.pillars, r.spawnY)
    ensures GroundLevel(r.scene.pillars) == Present(r.spawnY)
  {
    var pillars := s.pillars + Layout(viewWidth);
    Staging(
      s.(worldX := -InitialScroll, pillars := pillars),
      WallabySpawnX,
      pillars[0].y + PillarHeight / 2.0 + GroundClearance)
  }

  /** Touch-down: a charge starts, stamped with the touch's time, only while not jumping;
      while jumping the scene is left exactly as it was. */
  function TouchesBegan(s: Scene, stamp: Optional<real>): (r: Scene)
    ensures s.isJumping ==> r == s
    ensures !s.isJumping ==> r.isChargingJump && r.touchStartTime == stamp
    ensures r.isJumping == s.isJumping
    ensures SameWorld(s, r)
  {
    if !s.isJumping then s.(isChargingJump := true, touchStartTime := stamp) else s
  }

  /** Touch-up. A release while charging and not jumping turns the hold time into an
      impulse and starts the jump; any other release only drops the charge. The
      release time is the touch's own stamp, or the clock's `now` when it has none;
      a charge without a start stamp counts as a zero-length hold. */
  function TouchesEnded(s: Scene, stamp: Optional<real>, now: real): (r: Release)
    ensures r.impulse.Present? <==> s.isChargingJump && !s.isJumping
    ensures !r.scene.isChargingJump && r.scene.touchStartTime.Absent?
    ensures r.impulse.Absent? ==> r.scene.isJumping == s.isJumping
    ensures r.impulse.Present? ==> r.scene.isJumping
    ensures r.impulse.Present? && s.touchStartTime.Present? ==>
              r.impulse.value == ImpulseFor(Coalesce(stamp, now) - s.touchStartTime.value)
    ensures r.impulse.Present? && s.touchStartTime.Absent? ==> r.impulse.value == MinImpulse
    ensures SameWorld(s, r.scene)
  {
    if !(s.isChargingJump && !s.isJumping) then
      Release(s.(isChargingJump := false, touchStartTime := Absent), Absent)
    else
      var endTime := Coalesce(stamp, now);
      var startTime := Coalesce(s.touchStartTime, endTime);
      var duration := endTime - startTime;
      Release(
        s.(isJumping := true, isChargingJump := false, touchStartTime := Absent),
        Present(ImpulseFor(duration)))
  }

  /** Touch-cancel is handled as a release, so a cancelled charge still launches the wallaby. */
  function TouchesCancelled(s: Scene, stamp: Optional<real>, now: real): (r: Release)
    ensures r.impulse.Present? <==> s.isChargingJump && !s.isJumping
    ensures !r.scene.isChargingJump && r.scene.touchStartTime.Absent?
    ensures r.scene.isJumping == (s.isJumping || r.impulse.Present?)
    ensures r.impulse.Present? ==> MinImpulse.dx <= r.impulse.value.dx <= MaxImpulse.dx
    ensures r.impulse.Present? ==> MinImpulse.dy <= r.impulse.value.dy <= MaxImpulse.dy
    ensures r.impulse.Present? && s.touchStartTime.Present? ==>
              r.impulse.value == ImpulseFor(Coalesce(stamp, now) - s.touchStartTime.value)
    ensures r.impulse.Present? && s.touchStartTime.Absent? ==> r.impulse.value == MinImpulse
    ensures SameWorld(s, r.scene)
  {
    TouchesEnded(s, stamp, now)
  }

  /** A cancel and a release with the same stamps have exactly the same outcome. */
  lemma CancelIsRelease(s: Scene, stamp: Optional<real>, now: real)
    ensures TouchesCancelled(s, stamp, now) == TouchesEnded(s, stamp, now)
  {
  }

  /** One frame. The speed grows, the jump-power multiplier grows up to its cap (it is
      not applied to any impulse), the world scrolls left by the new speed, pillars past
      the left edge are recycled, and a wallaby at or below the ground level lands. */
  function Update(s: Scene, viewWidth: real, wallabyY: real): (r: Scene)
    ensures r.scrollSpeed == s.scrollSpeed + ScrollAcceleration
    ensures r.worldX == s.worldX - r.scrollSpeed
    ensures r.jumpPowerMultiplier <= MaxJumpPowerMultiplier
    ensures r.jumpPowerMultiplier >= s.jumpPowerMultiplier <==> s.jumpPowerMultiplier <= MaxJumpPowerMultiplier
    ensures s.jumpPowerMultiplier + JumpPowerIncreaseRate <= MaxJumpPowerMultiplier ==>
              r.jumpPowerMultiplier == s.jumpPowerMultiplier + JumpPowerIncreaseRate
    ensures s.jumpPowerMultiplier + JumpPowerIncreaseRate >= MaxJumpPowerMultiplier ==>
              r.jumpPowerMultiplier == MaxJumpPowerMultiplier
    ensures |r.pillars| == |s.pillars|
    ensures forall i :: 0 <= i < |s.pillars| ==> r.pillars[i].y == s.pillars[i].y
    ensures forall i :: 0 <= i < |s.pillars| && OffScreenLeft(s.pillars[i], r.worldX) ==>
              ScreenX(r.pillars[i], r.worldX) == viewWidth + PillarSpacing
    ensures forall i :: 0 <= i < |s.pillars| && !OffScreenLeft(s.pillars[i], r.worldX) ==>
              r.pillars[i] == s.pillars[i]
    ensures r.isChargingJump == s.isChargingJump
    ensures Landed(s.pillars, wallabyY) ==> !r.isJumping
    ensures Landed(s.pillars, wallabyY) && !s.isChargingJump ==> r.touchStartTime.Absent?
    ensures !Landed(s.pillars, wallabyY) || s.isChargingJump ==> r.touchStartTime == s.touchStartTime
    ensures !Landed(s.pillars, wallabyY) ==> r.isJumping == s.isJumping
  {
    var speed := s.scrollSpeed + ScrollAcceleration;
    var power := Min(s.jumpPowerMultiplier + JumpPowerIncreaseRate, MaxJumpPowerMultiplier);
    var worldX := s.worldX - speed;
    var pillars := RecycleAll(s.pillars, worldX, viewWidth);
    var moved := s.(scrollSpeed := speed, jumpPowerMultiplier := power, worldX := worldX, pillars := pillars);
    if Landed(pillars, wallabyY) then
      moved.(isJumping := false, touchStartTime := if !s.isChargingJump then Absent else s.touchStartTime)
    else
      moved
  }

  /** A run of frames, one wallaby height per frame. */
  function Run(s: Scene, viewWidth: real, heights: seq<real>): (r: Scene)
    decreases |heights|
  {
    if |heights| == 0 then s else Run(Update(s, viewWidth, heights[0]), viewWidth, heights[1..])
  }

  /** The scene's invariant once it is on screen: a charge only exists on the ground,
      a start stamp only during a charge, the speed is positive, the multiplier lies
      between its start and its cap, and the pool holds PillarCount pillars on the base line. */
  predicate Valid(s: Scene)
  {
    && (s.isChargingJump ==> !s.isJumping)
    && (s.touchStartTime.Present? ==> s.isChargingJump)
    && s.scrollSpeed > 0.0
    && InitialJumpPower <= s.jumpPowerMultiplier <= MaxJumpPowerMultiplier
    && |s.pillars| == PillarCount
    && forall i :: 0 <= i < |s.pillars| ==> s.pillars[i].y == PillarBaseY
  }

  /** Showing a freshly built scene establishes the invariant. */
  lemma DidMoveEstablishesValid(viewWidth: real)
    ensures Valid(DidMove(Initial(), viewWidth).scene)
    ensures DidMove(Initial(), viewWidth).scene.pillars == Layout(viewWidth)
  {
  }

  /** Every transition keeps the invariant. */
  lemma TransitionsPreserveValid(s: Scene, stamp: Optional<real>, now: real, viewWidth: real, wallabyY: real)
    requires Valid(s)
    ensures Valid(TouchesBegan(s, stamp))
    ensures Valid(TouchesEnded(s, stamp, now).scene)
    ensures Valid(TouchesCancelled(s, stamp, now).scene)
    ensures Valid(Update(s, viewWidth, wallabyY))
  {
  }

  /** Within the invariant a release launches exactly when a charge is in progress. */
  lemma ReleaseLaunchesIffCharging(s: Scene, stamp: Optional<real>, now: real)
    requires Valid(s)
    ensures TouchesEnded(s, stamp, now).impulse.Present? <==> s.isChargingJump
  {
  }

  /** A touch that goes down while the wallaby is in the air is ignored: its release
      applies no impulse and only leaves the charge cleared. */
  lemma AirborneTouchIgnored(s: Scene, down: Optional<real>, up: Optional<real>, now: real)
    requires s.isJumping
    ensures TouchesEnded(TouchesBegan(s, down), up, now).impulse.Absent?
    ensures TouchesEnded(TouchesBegan(s, down), up, now).scene
              == s.(isChargingJump := false, touchStartTime := Absent)
  {
  }

  /** A grounded press-and-release with stamps t0 and t1 launches with the impulse for
      the hold t1 - t0 and leaves the wallaby in the air with no charge. */
  lemma GroundedTapLaunches(s: Scene, t0: real, t1: real, now: real)
    requires !s.isJumping
    ensures TouchesEnded(TouchesBegan(s, Present(t0)), Present(t1), now).impulse == Present(ImpulseFor(t1 - t0))
    ensures TouchesEnded(TouchesBegan(s, Present(t0)), Present(t1), now).scene
              == s.(isJumping := true, isChargingJump := false, touchStartTime := Absent)
  {
  }

  /** How far the world scrolls over n frames that start at speed v: the speed grows
      by one acceleration step before each frame's move. */
  function Travelled(n: real, v: real): (d: real)
  {
    n * v + ScrollAcceleration / 2.0 * n * (n + 1.0)
  }

  /** One frame at speed v + a followed by m more frames covers the distance of m + 1 frames. */
  lemma TravelledStep(m: real, v: real)
    ensures (v + ScrollAcceleration) + Travelled(m, v + ScrollAcceleration) == Travelled(m + 1.0, v)
  {
  }

  /** Over any run of frames the speed grows by exactly one acceleration step per frame
      and the world position follows the closed form of that growing speed. */
  lemma {:induction false} RunScroll(s: Scene, viewWidth: real, heights: seq<real>)
    ensures Run(s, viewWidth, heights).scrollSpeed
              == s.scrollSpeed + (|heights| as real) * ScrollAcceleration
    ensures Run(s, viewWidth, heights).worldX == s.worldX - Travelled(|heights| as real, s.scrollSpeed)
    decreases |heights|
  {
    if |heights| == 0 {
      assert Travelled(0.0, s.scrollSpeed) == 0.0;
    } else {
      var s' := Update(s, viewWidth, heights[0]);
      var m := |heights[1..]| as real;
      RunScroll(s', viewWidth, heights[1..]);
      TravelledStep(m, s.scrollSpeed);
      assert m + 1.0 == |heights| as real;
      assert Run(s, viewWidth, heights) == Run(s', viewWidth, heights[1..]);
    }
  }

  /** Over any run of frames the invariant holds throughout and the multiplier never
      falls nor passes its cap. */
  lemma {:induction false} RunKeepsValid(s: Scene, viewWidth: real, heights: seq<real>)
    requires Valid(s)
    ensures Valid(Run(s, viewWidth, heights))
    ensures s.jumpPowerMultiplier <= Run(s, viewWidth, heights).jumpPowerMultiplier <= MaxJumpPowerMultiplier
    decreases |heights|
  {
    if |heights| > 0 {
      TransitionsPreserveValid(s, Absent, 0.0, viewWidth, heights[0]);
      RunKeepsValid(Update(s, viewWidth, heights[0]), viewWidth, heights[1..]);
    }
  }

  /** The multiplier reaches its cap after enough frames and then stays there. */
  lemma {:induction false} RunMultiplier(s: Scene, viewWidth: real, heights: seq<real>)
    requires s.jumpPowerMultiplier <= MaxJumpPowerMultiplier
    ensures Run(s, viewWidth, heights).jumpPowerMultiplier
              == Min(s.jumpPowerMultiplier + (|heights| as real) * JumpPowerIncreaseRate, MaxJumpPowerMultiplier)
    decreases |heights|
  {
    if |heights| > 0 {
      RunMultiplier(Update(s, viewWidth, heights[0]), viewWidth, heights[1..]);
    }
  }
}
