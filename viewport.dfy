/** The viewport and animation state of the fractal window, and each event's effect
    on it, as functions from the state before to the state after. */
module Viewport {
  import opened Optional

  /** Pixel resolution of the window, fixed at construction. */
  const Width: nat := 1000
  const Height: nat := 1000

  /** How much the constant's imaginary part drifts per frame in auto mode. */
  const AutoDriftStep: real := 0.0001

  /** The fields the event handlers read and write. Bounds: xa..xb is the real axis
      (xa the left edge), yb..ya the imaginary axis (ya the top edge). */
  datatype FractalState = FractalState(
    frameWidth: real, frameHeight: real,
    xa: real, xb: real, ya: real, yb: real,
    xCenter: real, yCenter: real,
    movement: seq<real>,
    isAnimated: bool, isAutomated: bool,
    cReal: real, cImaginary: real)

  /** What every reachable state keeps: a two-component movement vector, and bounds
      whose spans equal the frame's size. */
  predicate Consistent(s: FractalState)
  {
    |s.movement| == 2 && s.xb - s.xa == s.frameWidth && s.ya - s.yb == s.frameHeight
  }

  /** The bounds lie symmetrically about the centre. Zooming restores this; panning
      breaks it. */
  predicate Centred(s: FractalState)
  {
    (s.xa + s.xb) / 2.0 == s.xCenter && (s.ya + s.yb) / 2.0 == s.yCenter
  }

  /** Same size, bounds and centre: the part of the state that locates the frame. */
  predicate SameView(s: FractalState, t: FractalState)
  {
    s.frameWidth == t.frameWidth && s.frameHeight == t.frameHeight &&
    s.xa == t.xa && s.xb == t.xb && s.ya == t.ya && s.yb == t.yb &&
    s.xCenter == t.xCenter && s.yCenter == t.yCenter
  }

  /** The state __init__ sets up: a 5 × 5 frame centred on 0, c = 0.36 + 0.36i, still. */
  function Initial(): (s: FractalState)
    ensures Consistent(s) && Centred(s)
    ensures s.frameWidth == 5.0 && s.frameHeight == 5.0 && s.xCenter == 0.0 && s.yCenter == 0.0
    ensures s.movement == [0.0, 0.0] && !s.isAnimated && !s.isAutomated
    ensures s.cReal == 0.36 && s.cImaginary == 0.36
  {
    FractalState(5.0, 5.0, 0.0 - 5.0 / 2.0, 0.0 + 5.0 / 2.0, 0.0 + 5.0 / 2.0, 0.0 - 5.0 / 2.0,
                 0.0, 0.0, [0.0, 0.0], false, false, 0.36, 0.36)
  }

  /** The "Auto" button: toggle auto-drift. */
  function Automate(s: FractalState): (r: FractalState)
  {
    s.(isAutomated := !s.isAutomated)
  }

  /** Toggling auto-drift changes nothing but the flag, and twice is no change. */
  lemma AutomateOnlyFlips(s: FractalState)
    ensures Automate(s).isAutomated != s.isAutomated
    ensures SameView(Automate(s), s) && Automate(s).movement == s.movement
    ensures Automate(s).isAnimated == s.isAnimated
    ensures Automate(s).cReal == s.cReal && Automate(s).cImaginary == s.cImaginary
    ensures Automate(Automate(s)) == s
  {
  }

  /** The right click: drop the pending movement. */
  function StopMovement(s: FractalState): (r: FractalState)
  {
    s.(movement := [0.0, 0.0])
  }

  /** Stopping zeroes the movement vector and nothing else; in particular neither the
      centre, the bounds nor the zoom move. */
  lemma StopMovementOnlyZeroes(s: FractalState)
    ensures StopMovement(s).movement == [0.0, 0.0]
    ensures SameView(StopMovement(s), s)
    ensures Consistent(s) ==> Consistent(StopMovement(s))
    ensures StopMovement(s).(movement := s.movement) == s
  {
  }

  /** The factor a wheel event of the given delta scales the frame by. */
  function ZoomFactor(delta: int): real
  {
    1.0 + delta as real / 1000.0
  }

  /** A frame size after a wheel event of the given delta: the size scaled by the
      event's zoom factor. */
  function Zoomed(size: real, delta: int): (r: real)
    ensures r == size * ZoomFactor(delta)
  {
    size + delta as real * size / 1000.0
  }

  /** The mouse wheel: grow the frame by delta/1000 of itself and recompute the bounds
      about the current centre. */
  function UpdateSize(s: FractalState, delta: int): (r: FractalState)
    ensures r.frameWidth == s.frameWidth * ZoomFactor(delta)
    ensures r.frameHeight == s.frameHeight * ZoomFactor(delta)
    ensures r.xb - r.xa == r.frameWidth && r.ya - r.yb == r.frameHeight
    ensures Centred(r)
    ensures r.xCenter == s.xCenter && r.yCenter == s.yCenter && r.movement == s.movement
    ensures r.isAnimated == s.isAnimated && r.isAutomated == s.isAutomated
    ensures r.cReal == s.cReal && r.cImaginary == s.cImaginary
  {
    var fw, fh := Zoomed(s.frameWidth, delta), Zoomed(s.frameHeight, delta);
    s.(frameWidth := fw, frameHeight := fh,
       xa := s.xCenter - fw / 2.0, xb := s.xCenter + fw / 2.0,
       ya := s.yCenter + fh / 2.0, yb := s.yCenter - fh / 2.0)
  }

  /** A positive frame stays positive under a wheel event exactly when delta > -1000;
      the handler does not guard against the rest. */
  lemma ZoomKeepsFramePositive(s: FractalState, delta: int)
    requires s.frameWidth > 0.0 && s.frameHeight > 0.0
    ensures UpdateSize(s, delta).frameWidth > 0.0 <==> delta > -1000
    ensures UpdateSize(s, delta).frameHeight > 0.0 <==> delta > -1000
  {
    var f := ZoomFactor(delta);
    assert f > 0.0 <==> delta > -1000;
    ProductPositive(s.frameWidth, f);
    ProductPositive(s.frameHeight, f);
  }

  lemma ProductPositive(a: real, f: real)
    requires a > 0.0
    ensures a * f > 0.0 <==> f > 0.0
  {
    if f <= 0.0 {
      assert a * f <= 0.0;
    }
  }

  /** Pixel offset of a click from the middle of the window (integer halves, as `//`
      with a positive divisor). */
  function OffsetX(ex: int): int
  {
    ex - Width / 2
  }

  function OffsetY(ey: int): int
  {
    ey - Height / 2
  }

  /** How far a click `offset` pixels from the middle jumps the centre: a ten-thousandth
      of the frame's width per pixel, on both axes. */
  function Jump(offset: int, frameWidth: real): real
  {
    offset as real * frameWidth / 10000.0
  }

  /** What a click adds to the movement vector: per pixel, a millionth of the frame's
      height along the real axis but a hundred-thousandth along the imaginary axis. */
  function DriftX(offset: int, frameHeight: real): real
  {
    offset as real * frameHeight / 1000000.0
  }

  function DriftY(offset: int, frameHeight: real): real
  {
    offset as real * frameHeight / 100000.0
  }

  /** The left click at (ex, ey): jump the centre by the click's offset scaled to the
      frame, and add a smaller share of it to the movement vector. */
  function UpdatePos(s: FractalState, ex: int, ey: int): (r: FractalState)
    requires |s.movement| == 2
  {
    var x, y := OffsetX(ex), OffsetY(ey);
    s.(xCenter := s.xCenter + Jump(x, s.frameWidth),
       yCenter := s.yCenter - Jump(y, s.frameWidth),
       movement := s.movement[0 := s.movement[0] + DriftX(x, s.frameHeight)]
                             [1 := s.movement[1] + DriftY(y, s.frameHeight)])
  }

  /** How far the centre sits from the middle of the bounds. */
  function CentreOffset(s: FractalState): (real, real)
  {
    (s.xCenter - (s.xa + s.xb) / 2.0, s.yCenter - (s.ya + s.yb) / 2.0)
  }

  /** A click leaves the bounds and the size where they were, so the centre drifts away
      from the middle of the bounds by exactly the jump. */
  lemma UpdatePosKeepsBounds(s: FractalState, ex: int, ey: int)
    requires Consistent(s)
    ensures var r := UpdatePos(s, ex, ey);
      Consistent(r) && r.xa == s.xa && r.xb == s.xb && r.ya == s.ya && r.yb == s.yb &&
      r.frameWidth == s.frameWidth && r.frameHeight == s.frameHeight
    ensures CentreOffset(UpdatePos(s, ex, ey)).0 == CentreOffset(s).0 + Jump(OffsetX(ex), s.frameWidth)
    ensures CentreOffset(UpdatePos(s, ex, ey)).1 == CentreOffset(s).1 - Jump(OffsetY(ey), s.frameWidth)
  {
  }

  /** A click jumps the centre by its offset scaled to the frame's width, and adds to
      the movement vector its offset scaled to the frame's height. */
  lemma UpdatePosMoves(s: FractalState, ex: int, ey: int)
    requires Consistent(s)
    ensures UpdatePos(s, ex, ey).frameWidth == s.frameWidth
    ensures UpdatePos(s, ex, ey).frameHeight == s.frameHeight
    ensures UpdatePos(s, ex, ey).xCenter == s.xCenter + Jump(OffsetX(ex), s.frameWidth)
    ensures UpdatePos(s, ex, ey).yCenter == s.yCenter - Jump(OffsetY(ey), s.frameWidth)
    ensures UpdatePos(s, ex, ey).movement
         == [s.movement[0] + DriftX(OffsetX(ex), s.frameHeight),
             s.movement[1] + DriftY(OffsetY(ey), s.frameHeight)]
  {
    var r, x, y := UpdatePos(s, ex, ey), OffsetX(ex), OffsetY(ey);
    var m := [s.movement[0] + DriftX(x, s.frameHeight), s.movement[1] + DriftY(y, s.frameHeight)];
    assert |r.movement| == |m| == 2;
    assert r.movement[0] == m[0] && r.movement[1] == m[1];
    assert r.movement == m;
  }

  /** The per-frame step of draw_fractal: shift the centre and the bounds by the
      movement vector, which stays as it is. */
  function ApplyMovement(s: FractalState): (r: FractalState)
    requires |s.movement| == 2
  {
    var dx, dy := s.movement[0], s.movement[1];
    s.(xCenter := s.xCenter + dx, yCenter := s.yCenter + dy,
       xa := s.xa + dx, xb := s.xb + dx, ya := s.ya + dy, yb := s.yb + dy)
  }

  /** A frame translates the centre and both bounds of each axis by the same component
      of the movement vector, so the size, the spans and the centre's place relative to
      the bounds are all kept, and so is the vector. */
  lemma MovementTranslates(s: FractalState)
    requires |s.movement| == 2
    ensures var r := ApplyMovement(s);
      r.frameWidth == s.frameWidth && r.frameHeight == s.frameHeight &&
      r.xb - r.xa == s.xb - s.xa && r.ya - r.yb == s.ya - s.yb &&
      CentreOffset(r) == CentreOffset(s) &&
      r.xCenter - s.xCenter == r.xa - s.xa == r.xb - s.xb == s.movement[0] &&
      r.yCenter - s.yCenter == r.ya - s.ya == r.yb - s.yb == s.movement[1] &&
      r.movement == s.movement
  {
  }

  /** The constant's text parse: the entry's number, or 0 when its text is not one. */
  function ParseOrZero(entered: Option<real>): real
  {
    match entered
    case Some(v) => v
    case None => 0.0
  }

  /** The state part of draw_fractal: read c from the two entries, then move. */
  function Draw(s: FractalState, enteredReal: Option<real>, enteredImaginary: Option<real>): (r: FractalState)
    requires |s.movement| == 2
  {
    ApplyMovement(s.(cReal := ParseOrZero(enteredReal), cImaginary := ParseOrZero(enteredImaginary)))
  }

  /** Drawing a frame takes c from the entries, a component whose text is not a number
      becoming 0, moves the frame by the movement vector and keeps everything else. */
  lemma DrawEffect(s: FractalState, enteredReal: Option<real>, enteredImaginary: Option<real>)
    requires Consistent(s)
    ensures var r := Draw(s, enteredReal, enteredImaginary);
      Consistent(r) && (Centred(s) ==> Centred(r)) &&
      (enteredReal.None? ==> r.cReal == 0.0) && (enteredReal.Some? ==> r.cReal == enteredReal.value) &&
      (enteredImaginary.None? ==> r.cImaginary == 0.0) &&
      (enteredImaginary.Some? ==> r.cImaginary == enteredImaginary.value) &&
      r.xCenter == s.xCenter + s.movement[0] && r.yCenter == s.yCenter + s.movement[1] &&
      r.frameWidth == s.frameWidth && r.frameHeight == s.frameHeight &&
      r.xa == s.xa + s.movement[0] && r.xb == s.xb + s.movement[0] &&
      r.ya == s.ya + s.movement[1] && r.yb == s.yb + s.movement[1] &&
      r.movement == s.movement &&
      r.isAnimated == s.isAnimated && r.isAutomated == s.isAutomated
  {
  }

  /** One tick of start_animation. When animated: in auto mode the imaginary part of c
      drifts down, each entry loses its first 100 characters and gets the constant's own
      text in front of whatever is left. For an entry of at most 100 characters (assumed
      here) that leaves exactly the constant's text, which draw_fractal then reads back
      unchanged; otherwise the entries are read as the user left them. When not animated
      nothing happens. */
  function StartAnimation(s: FractalState, enteredReal: Option<real>, enteredImaginary: Option<real>): (r: FractalState)
    requires |s.movement| == 2
  {
    if !s.isAnimated then s
    else if s.isAutomated then
      var drifted := s.(cImaginary := s.cImaginary - AutoDriftStep);
      Draw(drifted, Some(drifted.cReal), Some(drifted.cImaginary))
    else Draw(s, enteredReal, enteredImaginary)
  }

  /** The "Start" button: flip the animation flag, then run a tick. */
  function AnimationTrigger(s: FractalState, enteredReal: Option<real>, enteredImaginary: Option<real>): (r: FractalState)
    requires |s.movement| == 2
  {
    StartAnimation(s.(isAnimated := !s.isAnimated), enteredReal, enteredImaginary)
  }

  /** A tick in auto mode lowers the imaginary part of c by exactly the drift step and
      keeps the real part, whatever the entries held (as long as they held at most 100
      characters, so that the tick overwrites them completely). */
  lemma AutoTickDrifts(s: FractalState, enteredReal: Option<real>, enteredImaginary: Option<real>)
    requires Consistent(s) && s.isAnimated && s.isAutomated
    ensures var r := StartAnimation(s, enteredReal, enteredImaginary);
      r.cImaginary == s.cImaginary - AutoDriftStep && r.cReal == s.cReal &&
      r.xCenter == s.xCenter + s.movement[0] && r.yCenter == s.yCenter + s.movement[1]
  {
  }

  /** The "Start" button stops a running animation without touching anything else, and
      starting one runs a tick at once. */
  lemma TriggerEffect(s: FractalState, enteredReal: Option<real>, enteredImaginary: Option<real>)
    requires Consistent(s)
    ensures s.isAnimated ==> AnimationTrigger(s, enteredReal, enteredImaginary) == s.(isAnimated := false)
    ensures !s.isAnimated ==>
      AnimationTrigger(s, enteredReal, enteredImaginary)
        == StartAnimation(s.(isAnimated := true), enteredReal, enteredImaginary)
  {
  }

  /** The movement part of n frames drawn with no input in between: the movement
      vector applied n times (each frame's re-read of c does not affect the view). */
  function Ticks(s: FractalState, n: nat): (r: FractalState)
    requires |s.movement| == 2
    ensures |r.movement| == 2
  {
    if n == 0 then s else ApplyMovement(Ticks(s, n - 1))
  }

  /** Ticks keep the movement vector, the spans and the centre's place relative to the
      bounds. */
  lemma {:induction false} TicksKeep(s: FractalState, n: nat)
    requires Consistent(s)
    ensures var r := Ticks(s, n);
      Consistent(r) && r.movement == s.movement && CentreOffset(r) == CentreOffset(s)
  {
    if n > 0 {
      TicksKeep(s, n - 1);
    }
  }

  /** The vector persists, so n ticks move the centre by n times it. */
  lemma {:induction false} TicksDrift(s: FractalState, n: nat)
    requires Consistent(s)
    ensures Ticks(s, n).xCenter == s.xCenter + n as real * s.movement[0]
    ensures Ticks(s, n).yCenter == s.yCenter + n as real * s.movement[1]
  {
    TicksAdd(s, n);
    RepeatedIsProduct(n, s.movement[0]);
    RepeatedIsProduct(n, s.movement[1]);
  }

  /** The centre after n ticks, as the movement added n times. */
  lemma {:induction false} TicksAdd(s: FractalState, n: nat)
    requires Consistent(s)
    ensures Ticks(s, n).xCenter == s.xCenter + Repeated(n, s.movement[0])
    ensures Ticks(s, n).yCenter == s.yCenter + Repeated(n, s.movement[1])
  {
    if n > 0 {
      var prev := Ticks(s, n - 1);
      TicksAdd(s, n - 1);
      TicksKeep(s, n - 1);
      assert Ticks(s, n) == ApplyMovement(prev);
    }
  }

  /** m added to itself n times. */
  function Repeated(n: nat, m: real): real
  {
    if n == 0 then 0.0 else Repeated(n - 1, m) + m
  }

  /** Repeated addition is multiplication. */
  lemma {:induction false} RepeatedIsProduct(n: nat, m: real)
    ensures Repeated(n, m) == n as real * m
  {
    if n > 0 {
      RepeatedIsProduct(n - 1, m);
      assert n as real * m == (n - 1) as real * m + m;
    }
  }

  /** The click scalings are linear in the pixel offset. */
  lemma ScalingsAdd(a: int, b: int, size: real)
    ensures Jump(a, size) + Jump(b, size) == Jump(a + b, size)
    ensures DriftX(a, size) + DriftX(b, size) == DriftX(a + b, size)
    ensures DriftY(a, size) + DriftY(b, size) == DriftY(a + b, size)
  {
    assert (a + b) as real * size == a as real * size + b as real * size;
  }

  /** Two clicks followed by one frame move the centre by both jumps plus the movement
      vector with both clicks' contributions added in: the movement accumulates. */
  lemma PanAccumulates(s: FractalState, ex1: int, ey1: int, ex2: int, ey2: int)
    requires Consistent(s)
    ensures var r := ApplyMovement(UpdatePos(UpdatePos(s, ex1, ey1), ex2, ey2));
      var x, y := OffsetX(ex1) + OffsetX(ex2), OffsetY(ey1) + OffsetY(ey2);
      r.movement == [s.movement[0] + DriftX(x, s.frameHeight), s.movement[1] + DriftY(y, s.frameHeight)] &&
      r.xCenter == s.xCenter + Jump(x, s.frameWidth) + r.movement[0] &&
      r.yCenter == s.yCenter - Jump(y, s.frameWidth) + r.movement[1]
  {
    var s1 := UpdatePos(s, ex1, ey1);
    UpdatePosKeepsBounds(s, ex1, ey1);
    UpdatePosMoves(s, ex1, ey1);
    UpdatePosMoves(s1, ex2, ey2);
    ScalingsAdd(OffsetX(ex1), OffsetX(ex2), s.frameWidth);
    ScalingsAdd(OffsetY(ey1), OffsetY(ey2), s.frameWidth);
    ScalingsAdd(OffsetX(ex1), OffsetX(ex2), s.frameHeight);
    ScalingsAdd(OffsetY(ey1), OffsetY(ey2), s.frameHeight);
  }

  /** After a stop, a frame leaves the view where it is. */
  lemma StopThenTickStill(s: FractalState)
    requires Consistent(s)
    ensures SameView(ApplyMovement(StopMovement(s)), s)
  {
  }
}
