/** The obstacle track: a fixed pool of pillars laid out once and recycled to the
    right edge of the screen whenever one scrolls fully past the left edge. */
module Track {
  import opened Tuning

  /** A pillar's centre in world coordinates; its size is the same for all pillars. */
  datatype Pillar = Pillar(x: real, y: real)

  /** Where a pillar appears on screen, given the world node's horizontal position. */
  function ScreenX(p: Pillar, worldX: real): (sx: real)
  {
    p.x + worldX
  }

  /** The recycling test: the pillar has gone fully past the left edge of the screen. */
  predicate OffScreenLeft(p: Pillar, worldX: real)
  {
    ScreenX(p, worldX) < -PillarWidth
  }

  /** One pillar's recycling step: an off-screen pillar is moved one spacing past
      the right edge of the screen; any other pillar stays where it is. */
  function Recycle(p: Pillar, worldX: real, viewWidth: real): (q: Pillar)
    ensures q.y == p.y
    ensures OffScreenLeft(p, worldX) ==> ScreenX(q, worldX) == viewWidth + PillarSpacing
    ensures !OffScreenLeft(p, worldX) ==> q == p
  {
    if OffScreenLeft(p, worldX) then
      var screenRightWorldX := -worldX + viewWidth;
      p.(x := screenRightWorldX + PillarSpacing)
    else
      p
  }

  /** The recycling pass of one frame, over the whole pool in storage order. */
  function RecycleAll(ps: seq<Pillar>, worldX: real, viewWidth: real): (qs: seq<Pillar>)
    ensures |qs| == |ps|
    ensures forall i :: 0 <= i < |ps| ==> qs[i].y == ps[i].y
    ensures forall i :: 0 <= i < |ps| && OffScreenLeft(ps[i], worldX) ==>
              ScreenX(qs[i], worldX) == viewWidth + PillarSpacing
    ensures forall i :: 0 <= i < |ps| && !OffScreenLeft(ps[i], worldX) ==> qs[i] == ps[i]
  {
    if |ps| == 0 then []
    else [Recycle(ps[0], worldX, viewWidth)] + RecycleAll(ps[1..], worldX, viewWidth)
  }

  /** After a recycling pass no pillar is left past the left edge, provided the
      screen is not absurdly narrow: recycling never takes more than one frame. */
  lemma RecycleLeavesNoneOffScreen(ps: seq<Pillar>, worldX: real, viewWidth: real)
    requires viewWidth >= 0.0
    ensures forall i :: 0 <= i < |ps| ==> !OffScreenLeft(RecycleAll(ps, worldX, viewWidth)[i], worldX)
    ensures forall i :: 0 <= i < |ps| && OffScreenLeft(ps[i], worldX) ==>
              ScreenX(RecycleAll(ps, worldX, viewWidth)[i], worldX) > 0.0
  {
  }

  /** A second recycling pass at the same scroll position changes nothing. */
  lemma RecycleIdempotent(ps: seq<Pillar>, worldX: real, viewWidth: real)
    requires viewWidth >= 0.0
    ensures RecycleAll(RecycleAll(ps, worldX, viewWidth), worldX, viewWidth) == RecycleAll(ps, worldX, viewWidth)
  {
  }

  /** The initial layout: PillarCount pillars on the base line, the first at the right
      edge of the screen and each next one a spacing further right. */
  function Layout(viewWidth: real): (ps: seq<Pillar>)
    ensures |ps| == PillarCount
    ensures ps[0].x == viewWidth
    ensures forall i :: 0 <= i < |ps| ==> ps[i].y == PillarBaseY
    ensures forall i :: 0 <= i < |ps| - 1 ==> ps[i + 1].x == ps[i].x + PillarSpacing
  {
    seq(PillarCount, i => Pillar(viewWidth + (i as real) * PillarSpacing, PillarBaseY))
  }

  /** The layout is the only pool with those properties: a pool that starts at the
      screen edge and keeps the spacing has pillar i at viewWidth + i * spacing. */
  lemma {:induction false} LayoutPositions(ps: seq<Pillar>, viewWidth: real, i: nat)
    requires 0 < |ps| && ps[0].x == viewWidth
    requires forall j :: 0 <= j < |ps| - 1 ==> ps[j + 1].x == ps[j].x + PillarSpacing
    requires i < |ps|
    ensures ps[i].x == viewWidth + (i as real) * PillarSpacing
  {
    if i > 0 {
      LayoutPositions(ps, viewWidth, i - 1);
      assert ps[i].x == ps[i - 1].x + PillarSpacing;
    }
  }
}
