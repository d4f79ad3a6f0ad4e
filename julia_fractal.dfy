/** The fractal window's object: its viewport and animation fields, the event handlers
    that update them in place, and the frame it renders through the kernel. */
module Fractal {
  import opened Optional
  import opened Plane
  import opened Kernel
  import opened Grid
  import Viewport

  /** What the window and float arithmetic supply to one frame: the number float() reads
      from each constant entry (None when its text is not a number), and whether
      arange's float stepping overshot by one element on each axis. */
  datatype FrameInput = FrameInput(
    enteredReal: Option<real>, enteredImaginary: Option<real>,
    xOvershoot: bool, yOvershoot: bool)

  class JuliaFractal {
    const width: nat := Viewport.Width
    const height: nat := Viewport.Height
    /** The number of pixels, one grid point and one channel entry each. */
    const pixels: nat := Viewport.Width * Viewport.Height
    /** The kernel's iteration budget. */
    const maxIt: int := 10000

    var isAnimated: bool
    var isAutomated: bool
    /** The constant c = cReal + cImaginary·i. */
    var cReal: real
    var cImaginary: real
    var xCenter: real
    var yCenter: real
    var frameWidth: real
    var frameHeight: real
    var movement: seq<real>
    var xa: real
    var xb: real
    var ya: real
    var yb: real
    /** The colour channels of the last rendered frame, one entry per pixel. */
    var red: array<int>
    var green: array<int>
    var blue: array<int>

    /** The fields as one value, the state the handlers are specified on. */
    ghost function State(): Viewport.FractalState
      reads this
    {
      Viewport.FractalState(frameWidth, frameHeight, xa, xb, ya, yb, xCenter, yCenter,
                            movement, isAnimated, isAutomated, cReal, cImaginary)
    }

    ghost predicate Valid()
      reads this
    {
      Viewport.Consistent(State())
    }

    /** The channels hold the kernel's colours for the given grid under the current
        constant. */
    ghost predicate Shows(grid: seq<Complex>)
      reads this, red, green, blue
    {
      Paints(grid, red, green, blue, Complex(cReal, cImaginary), maxIt)
    }

    /** The grid the current bounds yield. */
    ghost function CurrentGrid(input: FrameInput): seq<Complex>
      reads this`xa, this`xb, this`ya, this`yb
    {
      FrameGrid(xa, xb, yb, ya, width, height, input.xOvershoot, input.yOvershoot)
    }

    constructor ()
      ensures Valid() && Viewport.Centred(State())
      ensures State() == Viewport.Initial()
      ensures fresh(red) && fresh(green) && fresh(blue)
      ensures red.Length == green.Length == blue.Length == pixels
    {
      isAnimated := false;
      isAutomated := false;
      cReal := 0.36;
      cImaginary := 0.36;
      xCenter := 0.0;
      yCenter := 0.0;
      frameWidth := 5.0;
      frameHeight := 5.0;
      movement := [0.0, 0.0];
      red := new int[pixels];
      green := new int[pixels];
      blue := new int[pixels];
      new;
      xa := xCenter - frameWidth / 2.0;
      xb := xCenter + frameWidth / 2.0;
      ya := yCenter + frameHeight / 2.0;
      yb := yCenter - frameHeight / 2.0;
    }

    method Automate()
      requires Valid()
      modifies this`isAutomated
      ensures Valid()
      ensures State() == Viewport.Automate(old(State()))
    {
      isAutomated := !isAutomated;
    }

    method StopMovement()
      requires Valid()
      modifies this`movement
      ensures Valid()
      ensures State() == Viewport.StopMovement(old(State()))
    {
      movement := [0.0, 0.0];
    }

    method UpdateSize(delta: int)
      requires Valid()
      modifies this`frameWidth, this`frameHeight, this`xa, this`xb, this`ya, this`yb
      ensures Valid() && Viewport.Centred(State())
      ensures State() == Viewport.UpdateSize(old(State()), delta)
    {
      frameWidth := Viewport.Zoomed(frameWidth, delta);
      frameHeight := Viewport.Zoomed(frameHeight, delta);
      xa := xCenter - frameWidth / 2.0;
      xb := xCenter + frameWidth / 2.0;
      ya := yCenter + frameHeight / 2.0;
      yb := yCenter - frameHeight / 2.0;
    }

    /** The left click at window pixel (ex, ey). */
    method UpdatePos(ex: int, ey: int)
      requires Valid()
      modifies this`xCenter, this`yCenter, this`movement
      ensures Valid()
      ensures State() == Viewport.UpdatePos(old(State()), ex, ey)
    {
      var x := Viewport.OffsetX(ex);
      var y := Viewport.OffsetY(ey);
      xCenter := xCenter + Viewport.Jump(x, frameWidth);
      yCenter := yCenter - Viewport.Jump(y, frameWidth);
      movement := movement[0 := movement[0] + Viewport.DriftX(x, frameHeight)];
      movement := movement[1 := movement[1] + Viewport.DriftY(y, frameHeight)];
    }

    /** Run the kernel over the grid c and keep the three channels it fills. */
    method GpuComputeJuliaSet(c: seq<Complex>)
      modifies this`red, this`green, this`blue
      ensures fresh(red) && fresh(green) && fresh(blue)
      ensures Shows(c)
    {
      var q := new Complex[|c|](i requires 0 <= i < |c| => c[i]);
      assert q[..] == c;
      var r := new int[|c|];
      var g := new int[|c|];
      var b := new int[|c|];
      RunKernel(q, r, g, b, maxIt, cReal, cImaginary);
      red, green, blue := r, g, b;
    }

    /** Read c from the two entries, a component whose text is not a number becoming 0. */
    method ReadConstant(enteredReal: Option<real>, enteredImaginary: Option<real>)
      modifies this`cReal, this`cImaginary
      ensures State() == old(State()).(cReal := Viewport.ParseOrZero(enteredReal),
                                       cImaginary := Viewport.ParseOrZero(enteredImaginary))
    {
      cReal, cImaginary := Viewport.ParseOrZero(enteredReal), Viewport.ParseOrZero(enteredImaginary);
    }

    /** Shift the centre and the bounds by the movement vector. */
    method MoveFrame()
      requires Valid()
      modifies this`xCenter, this`yCenter, this`xa, this`xb, this`ya, this`yb
      ensures Valid()
      ensures State() == Viewport.ApplyMovement(old(State()))
    {
      var dx, dy := movement[0], movement[1];
      xCenter, yCenter := xCenter + dx, yCenter + dy;
      xa, xb, ya, yb := xa + dx, xb + dx, ya + dy, yb + dy;
    }

    /** One frame: read c from the entries, move the frame, build the grid and render
        it. A zero-size frame makes arange's step 0, which arange rejects; the frame is
        then not rendered, after the state has been updated. */
    method DrawFractal(input: FrameInput) returns (rendered: bool)
      requires Valid()
      modifies this
      ensures Valid()
      ensures State() == Viewport.Draw(old(State()), input.enteredReal, input.enteredImaginary)
      ensures rendered <==> frameWidth != 0.0 && frameHeight != 0.0
      ensures rendered ==> fresh(red) && fresh(green) && fresh(blue) && Shows(CurrentGrid(input))
      ensures !rendered ==> red == old(red) && green == old(green) && blue == old(blue)
    {
      ReadConstant(input.enteredReal, input.enteredImaginary);
      MoveFrame();
      var xStep := (xb - xa) / width as real;
      var yStep := (ya - yb) / height as real;
      StepZero(xb - xa, width);
      StepZero(ya - yb, height);
      if xStep == 0.0 || yStep == 0.0 {
        return false;
      }
      var c := FrameGrid(xa, xb, yb, ya, width, height, input.xOvershoot, input.yOvershoot);
      GpuComputeJuliaSet(c);
      rendered := true;
    }

    /** One tick of the animation loop (the rescheduling itself is not modelled). */
    method StartAnimation(input: FrameInput) returns (rendered: bool)
      requires Valid()
      modifies this
      ensures Valid()
      ensures State() == Viewport.StartAnimation(old(State()), input.enteredReal, input.enteredImaginary)
      ensures rendered <==> old(isAnimated) && frameWidth != 0.0 && frameHeight != 0.0
      ensures rendered ==> fresh(red) && fresh(green) && fresh(blue) && Shows(CurrentGrid(input))
      ensures !rendered ==> red == old(red) && green == old(green) && blue == old(blue)
    {
      rendered := false;
      if isAnimated {
        var entries := input;
        if isAutomated {
          cImaginary := cImaginary - Viewport.AutoDriftStep;
          // Both entries are overwritten with the constant's own text, which float()
          // reads back as the same number (for entries of at most 100 characters, which
          // delete(0, 100) clears completely).
          entries := input.(enteredReal := Some(cReal), enteredImaginary := Some(cImaginary));
        }
        rendered := DrawFractal(entries);
      }
    }

    /** The "Start" button. */
    method AnimationTrigger(input: FrameInput) returns (rendered: bool)
      requires Valid()
      modifies this
      ensures Valid()
      ensures State() == Viewport.AnimationTrigger(old(State()), input.enteredReal, input.enteredImaginary)
      ensures rendered <==> !old(isAnimated) && frameWidth != 0.0 && frameHeight != 0.0
      ensures rendered ==> fresh(red) && fresh(green) && fresh(blue) && Shows(CurrentGrid(input))
      ensures !rendered ==> red == old(red) && green == old(green) && blue == old(blue)
    {
      isAnimated := !isAnimated;
      rendered := StartAnimation(input);
    }
  }
}
