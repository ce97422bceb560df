/** The motion of the card strip: a velocity that decays by friction towards a
    cruising speed, a position that advances by velocity times elapsed time and
    wraps around between `-cardLineWidth` and the container width, and the drag
    handlers that move the strip by hand. */
module ScannerMotion {
  import opened Arith

  /** Width of one card, in pixels. */
  const CardWidth: real := 350.0

  /** The cruising velocity: `base` in the current direction. */
  function Cruise(base: real, direction: int): (r: real)
    requires direction == 1 || direction == -1
    ensures r == base * direction as real && Abs(r) == Abs(base)
  {
    if direction == 1 then base else -base
  }

  /** The velocity of the next frame while the strip moves on its own: above the
      cruising speed `base` it is slowed by `friction`; at or below it, the
      strip cruises at `base` in the current direction (FrictionStep: slowed
      without being reversed). */
  function NextVelocity(v: real, base: real, friction: real, direction: int): (r: real)
    requires direction == 1 || direction == -1
    // at or below the cruising speed the strip cruises, in the current direction
    ensures Abs(v) <= Abs(base) ==> r == Cruise(base, direction)
    // a friction of at most 1 never speeds the strip up beyond its old or cruising speed
    ensures 0.0 <= friction <= 1.0 ==> Abs(r) <= Max(Abs(v), Abs(base))
  {
    if Abs(v) > Abs(base) then
      ScaleSpeed(v, friction);
      v * friction
    else base * direction as real
  }

  /** Above the cruising speed a frame scales the speed by `friction` and keeps
      the sign of the velocity. */
  lemma FrictionStep(v: real, base: real, friction: real, direction: int)
    requires direction == 1 || direction == -1
    requires Abs(v) > Abs(base) && 0.0 <= friction
    ensures Abs(NextVelocity(v, base, friction, direction)) == Abs(v) * friction
    ensures NextVelocity(v, base, friction, direction) * v >= 0.0
  {
    ScaleSpeed(v, friction);
  }

  /** Scaling by a non-negative factor scales the speed and keeps the sign. */
  lemma ScaleSpeed(v: real, f: real)
    ensures 0.0 <= f ==> Abs(v * f) == Abs(v) * f && v * f * v >= 0.0
    ensures 0.0 <= f <= 1.0 ==> Abs(v * f) <= Abs(v)
  {
    if 0.0 <= f {
      if f <= 1.0 {
        MulLeft(Abs(v), f, 1.0);
      }
      if v < 0.0 {
        assert v * f * v == (-v) * (-v) * f;
        MulLeft(f, 0.0, (-v) * (-v));
      } else {
        MulLeft(f, 0.0, v * v);
      }
    }
  }

  lemma MulLeft(a: real, x: real, y: real)
    requires 0.0 <= a && x <= y
    ensures a * x <= a * y
  {
  }

  lemma MulPos(a: real, b: real)
    requires 0.0 < a && 0.0 < b
    ensures 0.0 < a * b
  {
  }

  /** A speed `s` at or above `b`, scaled by `f`, loses at least `(1 - f) * b`. */
  lemma FrictionSlows(s: real, b: real, f: real)
    requires 0.0 <= f <= 1.0 && b <= s
    ensures s * f <= s - (1.0 - f) * b
  {
    MulLeft(1.0 - f, b, s);
    assert (1.0 - f) * s == s - s * f;
  }

  /** The velocity after `n` frames without a drag, starting from `v`. A
      strip at or below the cruising speed is cruising after one frame and
      stays so (CoastBound and SettlesToCruise cover faster starts). */
  function Coast(v: real, base: real, friction: real, direction: int, n: nat): (r: real)
    requires direction == 1 || direction == -1
    ensures n == 0 ==> r == v
    ensures 0 < n && Abs(v) <= Abs(base) ==> r == Cruise(base, direction)
  {
    if n == 0 then v else NextVelocity(Coast(v, base, friction, direction, n - 1), base, friction, direction)
  }

  /** One frame above the cruising speed takes at least `(1 - friction) * |base|`
      off the speed: the bound "cruising speed or `a`" becomes "cruising speed
      or `a - (1 - friction) * |base|`". */
  lemma StepBound(c: real, base: real, friction: real, direction: int, a: real)
    requires direction == 1 || direction == -1
    requires 0.0 <= friction <= 1.0 && Abs(c) <= Max(Abs(base), a)
    ensures Abs(NextVelocity(c, base, friction, direction)) <= Max(Abs(base), a - (1.0 - friction) * Abs(base))
  {
    var r := NextVelocity(c, base, friction, direction);
    var loss := (1.0 - friction) * Abs(base);
    if Abs(c) > Abs(base) {
      FrictionStep(c, base, friction, direction);
      FrictionSlows(Abs(c), Abs(base), friction);
      assert Abs(r) <= Abs(c) - loss;
      assert Abs(c) <= a;
    } else {
      assert Abs(r) == Abs(base);
    }
  }

  /** `a` less `n` times `d`, one frame at a time. */
  function Budget(a: real, d: real, n: nat): real
  {
    if n == 0 then a else Budget(a, d, n - 1) - d
  }

  lemma {:induction false} BudgetIsLinear(a: real, d: real, n: nat)
    ensures Budget(a, d, n) == a - n as real * d
  {
    if n > 0 {
      BudgetIsLinear(a, d, n - 1);
      assert (n - 1) as real * d + d == n as real * d;
    }
  }

  /** After `n` frames the speed is at most the cruising speed or the starting
      speed less `n` times `(1 - friction) * |base|`, whichever is larger. */
  lemma {:induction false} CoastBound(v: real, base: real, friction: real, direction: int, n: nat)
    requires direction == 1 || direction == -1
    requires 0.0 <= friction <= 1.0
    ensures Abs(Coast(v, base, friction, direction, n))
            <= Max(Abs(base), Budget(Abs(v), (1.0 - friction) * Abs(base), n))
  {
    if n > 0 {
      CoastBound(v, base, friction, direction, n - 1);
      StepBound(Coast(v, base, friction, direction, n - 1), base, friction, direction,
                Budget(Abs(v), (1.0 - friction) * Abs(base), n - 1));
    }
  }

  /** A number of frames after which `n` steps of `d` use up `a`. */
  lemma EnoughFrames(a: real, d: real) returns (n: nat)
    requires 0.0 < d
    ensures a <= n as real * d
  {
    var x := a / d;
    var m := x.Floor;
    n := if m < 0 then 0 else m + 1;
    assert x <= n as real;
    MulLeft(d, x, n as real);
    assert d * x == a;
  }

  /** With a friction below 1 and a non-zero cruising speed, a strip let go at
      any speed comes back to cruising at exactly `base * direction`. */
  lemma SettlesToCruise(v: real, base: real, friction: real, direction: int)
    requires direction == 1 || direction == -1
    requires 0.0 <= friction < 1.0 && base != 0.0
    ensures exists n: nat :: Coast(v, base, friction, direction, n) == base * direction as real
  {
    var d := (1.0 - friction) * Abs(base);
    MulPos(1.0 - friction, Abs(base));
    var n := EnoughFrames(Abs(v), d);
    BudgetIsLinear(Abs(v), d, n);
    CoastBound(v, base, friction, direction, n);
    assert Coast(v, base, friction, direction, n + 1) == Cruise(base, direction);
  }

  /** Where a strip at `position` is after moving at `velocity` pixels per
      second for `seconds`. */
  function Advance(position: real, velocity: real, seconds: real): (p: real)
    ensures seconds == 0.0 || velocity == 0.0 ==> p == position
    ensures 0.0 < seconds ==> (p > position <==> velocity > 0.0) && (p < position <==> velocity < 0.0)
  {
    position + velocity * seconds
  }

  /** Seconds between two timestamps given in milliseconds. */
  function Seconds(from: real, to: real): (s: real)
    ensures from <= to ==> 0.0 <= s
    ensures s * 1000.0 == to - from
  {
    (to - from) / 1000.0
  }

  /** The wrap-around: a strip that has left on the left re-enters at the
      container's right edge, one that has left on the right re-enters at
      `-lineWidth`, and one in between stays where it is. */
  function Wrap(p: real, lineWidth: real, containerWidth: real): (q: real)
    ensures q == p || q == containerWidth || q == -lineWidth
    ensures -lineWidth <= p <= containerWidth ==> q == p
    ensures p < -lineWidth ==> q == containerWidth
    ensures -lineWidth <= p && containerWidth < p ==> q == -lineWidth
    // for widths that are not negative the strip always ends up in range
    ensures 0.0 <= lineWidth && 0.0 <= containerWidth ==> -lineWidth <= q <= containerWidth
  {
    if p < -lineWidth then containerWidth
    else if p > containerWidth then -lineWidth
    else p
  }

  /** Where a drag that started at `lastX` has taken the strip after the
      pointer visited each of `moves` in turn. */
  function Dragged(position: real, lastX: real, moves: seq<real>): (p: real)
    ensures |moves| == 1 ==> p == position + (moves[0] - lastX)
    decreases |moves|
  {
    if moves == [] then position
    else Dragged(position + (moves[0] - lastX), moves[0], moves[1..])
  }

  /** A drag moves the strip by exactly the distance between where the pointer
      went down and where it last was. */
  lemma {:induction false} DragTelescopes(position: real, lastX: real, moves: seq<real>)
    requires moves != []
    ensures Dragged(position, lastX, moves) == position + (moves[|moves| - 1] - lastX)
    decreases |moves|
  {
    if |moves| > 1 {
      DragTelescopes(position + (moves[0] - lastX), moves[0], moves[1..]);
    }
  }

  /** The mutable state of the strip (`cardStreamState`) with the pause flag. */
  class CardStream {
    var position: real
    var velocity: real
    var direction: int
    var isDragging: bool
    var lastMouseX: real
    var lastTime: real
    var isPaused: bool
    const initialSpeed: real
    const friction: real
    const cardLineWidth: real

    predicate Valid()
      reads this
    {
      direction == 1 || direction == -1
    }

    /** The strip at rest at position 0, moving at the initial speed. */
    constructor (initialSpeed: real, direction: int, friction: real, cardGap: real, cardCount: nat, now: real)
      requires direction == 1 || direction == -1
      ensures Valid()
      ensures position == 0.0 && velocity == initialSpeed && this.direction == direction
      ensures !isDragging && lastMouseX == 0.0 && lastTime == now && !isPaused
      ensures this.initialSpeed == initialSpeed && this.friction == friction
      ensures cardLineWidth == (CardWidth + cardGap) * cardCount as real
    {
      position := 0.0;
      velocity := initialSpeed;
      this.direction := direction;
      isDragging := false;
      lastMouseX := 0.0;
      lastTime := now;
      isPaused := false;
      this.initialSpeed := initialSpeed;
      this.friction := friction;
      cardLineWidth := (CardWidth + cardGap) * cardCount as real;
    }

    /** `changeDirection`: the cruising direction flips; nothing else changes. */
    method ChangeDirection()
      requires Valid()
      modifies this
      ensures Valid()
      ensures direction == -old(direction)
      ensures position == old(position) && velocity == old(velocity) && isDragging == old(isDragging)
      ensures lastMouseX == old(lastMouseX) && lastTime == old(lastTime) && isPaused == old(isPaused)
    {
      direction := direction * -1;
    }

    /** `toggleAnimation`: pauses or resumes; nothing else changes. */
    method ToggleAnimation()
      modifies this
      ensures isPaused == !old(isPaused)
      ensures position == old(position) && velocity == old(velocity) && direction == old(direction)
      ensures isDragging == old(isDragging) && lastMouseX == old(lastMouseX) && lastTime == old(lastTime)
    {
      isPaused := !isPaused;
    }

    /** `handleMouseDown`: a drag starts at `pageX`. */
    method MouseDown(pageX: real)
      modifies this
      ensures isDragging && lastMouseX == pageX
      ensures position == old(position) && velocity == old(velocity) && direction == old(direction)
      ensures lastTime == old(lastTime) && isPaused == old(isPaused)
    {
      isDragging := true;
      lastMouseX := pageX;
    }

    /** `handleMouseMove`: outside a drag nothing happens; during one the strip
        follows the pointer and takes 50 times the step as its velocity. */
    method MouseMove(pageX: real)
      modifies this
      ensures !old(isDragging) ==> position == old(position) && velocity == old(velocity)
                                   && lastMouseX == old(lastMouseX)
      ensures old(isDragging) ==> position == old(position) + (pageX - old(lastMouseX))
                                  && velocity == 50.0 * (pageX - old(lastMouseX)) && lastMouseX == pageX
      ensures old(isDragging) ==> position == Dragged(old(position), old(lastMouseX), [pageX])
      ensures isDragging == old(isDragging) && direction == old(direction)
      ensures lastTime == old(lastTime) && isPaused == old(isPaused)
    {
      if !isDragging {
        return;
      }
      var delta := pageX - lastMouseX;
      lastMouseX := pageX;
      position := position + delta;
      velocity := delta * 50.0;
    }

    /** `handleMouseUp`: the drag ends; the strip keeps the velocity of the last move. */
    method MouseUp()
      modifies this
      ensures !isDragging
      ensures position == old(position) && velocity == old(velocity) && direction == old(direction)
      ensures lastMouseX == old(lastMouseX) && lastTime == old(lastTime) && isPaused == old(isPaused)
    {
      isDragging := false;
    }

    /** The strip part of `animate`: unless paused or dragged, the velocity takes
        one friction step and the position advances by velocity times the
        elapsed seconds; the wrap-around applies on every frame. */
    method Animate(currentTime: real, containerWidth: real)
      requires Valid()
      modifies this
      ensures Valid()
      ensures lastTime == currentTime
      ensures direction == old(direction) && isDragging == old(isDragging)
      ensures lastMouseX == old(lastMouseX) && isPaused == old(isPaused)
      ensures !isPaused && !isDragging ==>
                velocity == NextVelocity(old(velocity), initialSpeed, friction, direction)
                && position == Wrap(Advance(old(position), velocity, Seconds(old(lastTime), currentTime)),
                                    cardLineWidth, containerWidth)
      ensures isPaused || isDragging ==>
                velocity == old(velocity) && position == Wrap(old(position), cardLineWidth, containerWidth)
      ensures 0.0 <= cardLineWidth && 0.0 <= containerWidth ==> -cardLineWidth <= position <= containerWidth
    {
      var deltaTime := Seconds(lastTime, currentTime);
      lastTime := currentTime;
      if !isPaused && !isDragging {
        Glide(deltaTime);
      }
      WrapAround(containerWidth);
    }

    /** The moving part of a frame: one friction step, then the position
        advances by the new velocity over `seconds`. */
    method Glide(seconds: real)
      requires Valid()
      modifies this
      ensures Valid()
      ensures velocity == NextVelocity(old(velocity), initialSpeed, friction, direction)
      ensures position == Advance(old(position), velocity, seconds)
      ensures lastTime == old(lastTime) && direction == old(direction) && isDragging == old(isDragging)
      ensures lastMouseX == old(lastMouseX) && isPaused == old(isPaused)
    {
      if Abs(velocity) > Abs(initialSpeed) {
        velocity := velocity * friction;
      } else {
        velocity := initialSpeed * direction as real;
      }
      position := Advance(position, velocity, seconds);
    }

    /** The end of a frame: a strip that has left the container re-enters on
        the other side. */
    method WrapAround(containerWidth: real)
      requires Valid()
      modifies this
      ensures Valid()
      ensures position == Wrap(old(position), cardLineWidth, containerWidth)
      ensures velocity == old(velocity) && lastTime == old(lastTime)
      ensures direction == old(direction) && isDragging == old(isDragging)
      ensures lastMouseX == old(lastMouseX) && isPaused == old(isPaused)
    {
      if position < -cardLineWidth {
        position := containerWidth;
      } else if position > containerWidth {
        position := -cardLineWidth;
      }
    }
  }
}
