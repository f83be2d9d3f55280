/** The parallax starfield: stars drift against the ship's motion, layer by layer. */
module Backgrounds {
  import opened Vectors
  import opened Constants
  import opened Options

  /** `STAR_SPEEDS`: how strongly each layer, far to near, follows the camera. */
  const StarSpeeds: seq<real> := [0.1, 0.3, 0.6]

  /** One axis of the star wrap: at most one jump of a full screen size. */
  function WrapStarCoord(v: real, size: real): real
  {
    if v < 0.0 then v + size else if v > size then v - size else v
  }

  /** A star's position after moving against `delta` at a layer speed. */
  function ParallaxStep(p: Vec2, delta: Vec2, layerSpeed: real): Vec2
  {
    Vec2(WrapStarCoord(p.x - delta.x * layerSpeed, ScreenWidth),
         WrapStarCoord(p.y - delta.y * layerSpeed, ScreenHeight))
  }

  predicate OnScreen(p: Vec2)
  {
    0.0 <= p.x <= ScreenWidth && 0.0 <= p.y <= ScreenHeight
  }

  /** A coordinate in [0, size] shifted by at most size in either direction wraps back into [0, size]. */
  lemma WrapStarCoordInRange(v: real, shift: real, size: real)
    requires 0.0 <= v <= size && -size <= shift <= size
    ensures 0.0 <= WrapStarCoord(v - shift, size) <= size
  {
  }

  /** The per-axis wrap: below 0 add the size, above it subtract it, else leave it. */
  lemma WrapStarCoordCases(v: real, size: real)
    requires 0.0 <= size
    ensures v < 0.0 ==> WrapStarCoord(v, size) == v + size
    ensures v > size ==> WrapStarCoord(v, size) == v - size
    ensures 0.0 <= v <= size ==> WrapStarCoord(v, size) == v
  {
  }

  /** A star on screen stays on screen when each axis shifts by at most a screen size. */
  lemma ParallaxKeepsOnScreen(p: Vec2, delta: Vec2, layerSpeed: real)
    requires OnScreen(p)
    requires -ScreenWidth <= delta.x * layerSpeed <= ScreenWidth
    requires -ScreenHeight <= delta.y * layerSpeed <= ScreenHeight
    ensures OnScreen(ParallaxStep(p, delta, layerSpeed))
  {
    WrapStarCoordInRange(p.x, delta.x * layerSpeed, ScreenWidth);
    WrapStarCoordInRange(p.y, delta.y * layerSpeed, ScreenHeight);
  }

  class Star {
    var position: Vec2
    const layer: nat

    /** `Star(x, y, layer)`; the brightness and twinkle draws are not kept. */
    constructor (x: real, y: real, layer: nat)
      requires layer < StarLayers
      ensures position == Vec2(x, y) && this.layer == layer
    {
      position := Vec2(x, y);
      this.layer := layer;
    }

    /** `update_parallax(camera_delta, layer_speed)`. */
    method UpdateParallax(cameraDelta: Vec2, layerSpeed: real)
      modifies this
      ensures position == ParallaxStep(old(position), cameraDelta, layerSpeed)
    {
      position := position.(x := position.x - cameraDelta.x * layerSpeed);
      position := position.(y := position.y - cameraDelta.y * layerSpeed);
      if position.x < 0.0 {
        position := position.(x := position.x + ScreenWidth);
      } else if position.x > ScreenWidth {
        position := position.(x := position.x - ScreenWidth);
      }
      if position.y < 0.0 {
        position := position.(y := position.y + ScreenHeight);
      } else if position.y > ScreenHeight {
        position := position.(y := position.y - ScreenHeight);
      }
    }
  }

  class Background {
    var stars: seq<Star>
    var time: real
    var lastPlayerPos: Vec2

    ghost predicate Valid()
      reads this, stars
    {
      (forall i, j :: 0 <= i < j < |stars| ==> stars[i] != stars[j]) &&
      (forall i :: 0 <= i < |stars| ==> stars[i].layer < StarLayers)
    }

    /**
     * `Background()` with the stars supplied: the source places them at
     * random; the camera starts at the screen centre.
     */
    constructor (stars: seq<Star>)
      requires forall i, j :: 0 <= i < j < |stars| ==> stars[i] != stars[j]
      requires forall i :: 0 <= i < |stars| ==> stars[i].layer < StarLayers
      ensures Valid() && this.stars == stars && time == 0.0
      ensures lastPlayerPos == Vec2(ScreenWidth / 2.0, ScreenHeight / 2.0)
    {
      this.stars := stars;
      time := 0.0;
      lastPlayerPos := Vec2(ScreenWidth / 2.0, ScreenHeight / 2.0);
    }

    /**
     * `update(dt, player_pos)`: the clock always advances; with a player
     * position every star moves against the camera's motion since the last
     * update, at its layer's speed.
     */
    method Update(dt: real, playerPos: Option<Vec2>)
      requires Valid()
      modifies this, stars
      ensures Valid() && stars == old(stars) && time == old(time) + dt
      ensures playerPos.None? ==>
        lastPlayerPos == old(lastPlayerPos) &&
        forall i :: 0 <= i < |stars| ==> stars[i].position == old(stars[i].position)
      ensures playerPos.Some? ==>
        lastPlayerPos == playerPos.value &&
        forall i :: 0 <= i < |stars| ==>
          stars[i].position ==
          ParallaxStep(old(stars[i].position), playerPos.value.Sub(old(lastPlayerPos)), StarSpeeds[stars[i].layer])
    {
      time := time + dt;
      if playerPos.Some? {
        var delta := playerPos.value.Sub(lastPlayerPos);
        lastPlayerPos := playerPos.value;
        for i := 0 to |stars|
          modifies stars
          invariant forall j :: 0 <= j < |stars| ==>
            stars[j].position ==
            if j < i then ParallaxStep(old(stars[j].position), delta, StarSpeeds[stars[j].layer])
            else old(stars[j].position)
        {
          stars[i].UpdateParallax(delta, StarSpeeds[stars[i].layer]);
        }
      }
    }
  }

  /** Stars that start on screen stay there while the camera moves by at most a screen size per update. */
  lemma BackgroundKeepsStarsOnScreen(p: Vec2, delta: Vec2, layer: nat)
    requires layer < StarLayers && OnScreen(p)
    requires -ScreenWidth <= delta.x <= ScreenWidth && -ScreenHeight <= delta.y <= ScreenHeight
    ensures OnScreen(ParallaxStep(p, delta, StarSpeeds[layer]))
  {
    var k := StarSpeeds[layer];
    assert 0.0 < k < 1.0;
    ScaleWithin(delta.x, k, ScreenWidth);
    ScaleWithin(delta.y, k, ScreenHeight);
    ParallaxKeepsOnScreen(p, delta, k);
  }

  lemma ScaleWithin(d: real, k: real, size: real)
    requires 0.0 < k < 1.0 && -size <= d <= size
    ensures -size <= d * k <= size
  {
    var j := 1.0 - k;
    if d >= 0.0 {
      assert d * k >= 0.0;
      assert d * j >= 0.0;
      assert d * j == d - d * k;
    } else {
      var e := -d;
      assert e * k > 0.0;
      assert e * j > 0.0;
      assert e * j == e - e * k;
      assert d * k == -(e * k);
    }
  }
}
