# Julia fractal viewer: a Dafny model of its core

`julia_fractal.py` is a Tk window that draws the Julia set of a constant c. It has
three parts that hold logic rather than plumbing, and this project models those:

- **The escape-time kernel.** A CUDA elementwise kernel that, for each pixel's
  start point z0, iterates z ← z² + c. It tests the squared modulus of the point
  *before* each update against 2.0. At the first step that exceeds the threshold
  it paints the pixel from a palette of that step count; a pixel that never
  escapes stays black. Files: `plane.dfy`, `kernel.dfy`.
- **The viewport and animation state** of the `JuliaFractal` object: the frame's
  size, its bounds, its centre, a movement vector, the animation and auto-drift
  flags, and the constant c. It also covers the event handlers that update these
  fields in place. Files: `viewport.dfy` (each handler as a pure transition on a
  `FractalState` value, and the properties proved about it), and
  `julia_fractal.dfy` (class `JuliaFractal`, whose methods update the fields and
  are proved equal to those transitions).
- **The sample grid** of one frame. Each axis is a stepped range over the bounds,
  truncated when float stepping yields one element too many. The grid is the
  row-major outer sum x[col] + y[row]·i. File: `grid.dfy`.

The kernel is a method that fills the `red`/`green`/`blue` arrays in place. It is
proved pixel by pixel against a pure specification:
`PixelColour(EscapeTime(z0, c, maxiter))`, where `EscapeTime` is the first index
whose `Orbit` point exceeds the threshold. The GPU runs the threads in parallel;
the model runs them one after another, which gives the same result because each
thread writes only its own pixel.

Arithmetic is exact: `real` for the orbit and the viewport, unbounded `int` for
the colour channels.

## Model

| member | source | states |
|---|---|---|
| Plane.Step | julia_fractal.py:80-84 | the kernel's update of the real and imaginary parts is z·z + c under the textbook complex multiplication and addition |
| Plane.Norm2 | julia_fractal.py:80-81 | no contract of its own: real² + imag², the operand of the kernel's escape test; Kernel.Iterate proves the kernel's two squares sum to it |
| Plane.Escaped | julia_fractal.py:86 | no contract of its own: the escape test, squared modulus above 2.0; its properties are Kernel.EscapeTimeIsFirstEscape and Kernel.ImmediateEscape |
| Kernel.Orbit | julia_fractal.py:79-84 | no contract of its own: the point held at the start of iteration k; Kernel.KernelBody's loop invariant ties (real, imag) to it, and Kernel.OriginIsFixed is proved about it |
| Kernel.IsFirstEscape | julia_fractal.py:79-91 | no contract of its own: k is below the budget, its orbit point escapes and no earlier one does; Kernel.EscapeTimeIsFirstEscape ties it to Kernel.EscapeTime in both directions |
| Kernel.Iterate | julia_fractal.py:80-83 | the two squares sum to the squared modulus of the current point, and the new point is z·z + c under complex multiplication and addition (and so one Step) |
| Kernel.KernelBody | julia_fractal.py:72-93 | pixel i ends up with the colour of its start point's escape time (black when there is none); every other pixel is unchanged |
| Kernel.RunKernel | julia_fractal.py:67-93 | after the dispatch over all thread indices, every pixel holds the colour of its own start point's escape time |
| Kernel.EscapeFrom | julia_fractal.py:79-86 | the result is the first index in [from, maxiter) whose orbit point exceeds the threshold, with no escape before it; None means no index in that range escapes |
| Kernel.EscapeTime | julia_fractal.py:79-86 | Some(k) means k < maxiter, the orbit point at k escapes, and no earlier one does; None means no orbit point below maxiter escapes |
| Kernel.EscapeTimeIsFirstEscape | julia_fractal.py:79-91 | the escape time is k if and only if k is the first escaping index below the budget |
| Kernel.ImmediateEscape | julia_fractal.py:79-86 | a start point already beyond the threshold escapes at step 0, for any c, when maxiter > 0 |
| Kernel.NoBudgetNoEscape | julia_fractal.py:76-79 | with maxiter <= 0 the loop does not run and nothing escapes, so the pixel stays black |
| Kernel.OriginIsFixed | julia_fractal.py:80-84 | with c = 0 the orbit of 0 stays at 0 at every step |
| Kernel.OriginNeverEscapes | julia_fractal.py:76-86 | z0 = 0 with c = 0 never escapes, whatever the budget |
| Kernel.Palette | julia_fractal.py:87-90 | red is even and in 0..430; green is in 0..935; blue is a multiple of 7 in 0..217; step 0 gives (80, 100, 0) |
| Kernel.PaletteNeverBlack | julia_fractal.py:87-90 | the green channel of an escaped pixel is never 0, so an escaped pixel is never black |
| Kernel.PalettePeriodic | julia_fractal.py:87-90 | the palette repeats every 256 steps |
| Kernel.PixelColour | julia_fractal.py:76-90 | no contract of its own: black when there is no escape, the palette of the escape step otherwise; its properties are Kernel.BlackIffNoEscape and Kernel.PaletteNeverBlack |
| Kernel.Abs | julia_fractal.py:88-89 | the result is x or −x, and never negative |
| Kernel.BlackIffNoEscape | julia_fractal.py:76-91 | a pixel is black exactly when its orbit does not escape within the budget |
| Grid.Arange | julia_fractal.py:183 | the idealised range has exactly the number of elements asked for (its values, lo + k·step, are stated for axes by Grid.AxisAt) |
| Grid.StepZero | julia_fractal.py:183 | an axis's step, the span divided by the pixel count, is 0 exactly when the span is 0 |
| Grid.Truncate | julia_fractal.py:184-187 | a range of at most n elements is kept as is; one of n + 1 elements loses its last element |
| Grid.Axis | julia_fractal.py:183-192 | an axis has exactly n elements whether or not the range overshot by one |
| Grid.AxisAt | julia_fractal.py:183-192 | element k of an axis is lo + k·(hi − lo)/n, whether or not the range overshot |
| Grid.AxisEnds | julia_fractal.py:183-192 | an axis starts at lo and ends one step short of hi |
| Grid.Ravel | julia_fractal.py:194 | the flattened outer sum has len(x)·len(y) points |
| Grid.RavelAt | julia_fractal.py:194 | point row·len(x) + col of the flattened grid lies in range and is x[col] + y[row]·i |
| Grid.FrameGrid | julia_fractal.py:183-194 | a frame's grid has width·height points |
| Grid.FrameGridAt | julia_fractal.py:183-194 | the point for row `row` and column `col` is x-axis element col plus y-axis element row times i |
| Grid.FrameGridCorners | julia_fractal.py:183-194 | the first point is xa + yb·i; the last is one step short of xb + ya·i on each axis |
| Viewport.Initial | julia_fractal.py:40-61 | the initial state is a 5 × 5 frame centred on 0, consistent and centred, still, with neither flag set and c = 0.36 + 0.36i |
| Viewport.Automate | julia_fractal.py:104-106 | no contract of its own; its properties are Viewport.AutomateOnlyFlips |
| Viewport.AutomateOnlyFlips | julia_fractal.py:104-106 | Auto flips only the auto-drift flag; the view, the movement, the animation flag and c are kept; flipping twice is no change |
| Viewport.StopMovement | julia_fractal.py:108-110 | no contract of its own; its properties are Viewport.StopMovementOnlyZeroes and Viewport.StopThenTickStill |
| Viewport.StopMovementOnlyZeroes | julia_fractal.py:108-110 | a stop sets the movement to [0, 0] and changes nothing else, in particular not the view |
| Viewport.Zoomed | julia_fractal.py:114-115 | a wheel event scales a frame size by 1 + delta/1000 |
| Viewport.UpdateSize | julia_fractal.py:112-119 | the zoom scales both sizes by 1 + delta/1000; the bounds span the new sizes and are centred on the unchanged centre; the movement, the flags and c are kept |
| Viewport.ZoomKeepsFramePositive | julia_fractal.py:114-115 | a positive frame size stays positive if and only if delta > −1000 |
| Viewport.OffsetX | julia_fractal.py:123 | no contract of its own: the click's horizontal offset from the middle of the window, ex − width // 2; used by Viewport.UpdatePosMoves |
| Viewport.OffsetY | julia_fractal.py:124 | no contract of its own: the click's vertical offset from the middle of the window, ey − height // 2; used by Viewport.UpdatePosMoves |
| Viewport.Jump | julia_fractal.py:125-126 | no contract of its own: offset·frame_width/10000; Viewport.ScalingsAdd proves it additive in the offset |
| Viewport.DriftX | julia_fractal.py:127 | no contract of its own: offset·frame_height/1000000; Viewport.ScalingsAdd proves it additive in the offset |
| Viewport.DriftY | julia_fractal.py:128 | no contract of its own: offset·frame_height/100000; Viewport.ScalingsAdd proves it additive in the offset |
| Viewport.ScalingsAdd | julia_fractal.py:125-128 | the jump and both drifts of a summed offset are the sums of the separate ones |
| Viewport.UpdatePos | julia_fractal.py:121-128 | no contract of its own; its properties are Viewport.UpdatePosKeepsBounds, Viewport.UpdatePosMoves and Viewport.PanAccumulates |
| Viewport.UpdatePosKeepsBounds | julia_fractal.py:121-128 | a click keeps the bounds and sizes, so the centre moves away from the middle of the bounds by exactly its jump |
| Viewport.UpdatePosMoves | julia_fractal.py:121-128 | a click moves the centre by x·fw/10000 and −y·fw/10000, and adds x·fh/1000000 and y·fh/100000 to the movement, with x, y the offsets from the window's middle |
| Viewport.PanAccumulates | julia_fractal.py:121-128 | two clicks then a frame: the movement holds both clicks' contributions added together, and the centre moves by both jumps plus the accumulated movement |
| Viewport.ApplyMovement | julia_fractal.py:177-182 | no contract of its own; its properties are Viewport.MovementTranslates |
| Viewport.MovementTranslates | julia_fractal.py:177-182 | a frame shifts the centre and both bounds by the movement vector; the size, the spans, the centre's offset and the vector itself are kept |
| Viewport.ParseOrZero | julia_fractal.py:175-176 | no contract of its own: the entry's number, or 0 when its text is not one; Viewport.DrawEffect states both cases |
| Viewport.Draw | julia_fractal.py:175-182 | no contract of its own: parse c, then apply the movement; its properties are Viewport.DrawEffect |
| Viewport.DrawEffect | julia_fractal.py:175-182 | drawing takes each component of c from its entry, or 0 when the entry is not a number; moves the centre and all four bounds by the movement; keeps the frame sizes, consistency, the centring, the movement and the flags |
| Viewport.StartAnimation | julia_fractal.py:135-144 | no contract of its own: unchanged when not animated, otherwise an auto drift (in auto mode) then a draw; its properties are Viewport.AutoTickDrifts and Viewport.TriggerEffect |
| Viewport.AnimationTrigger | julia_fractal.py:130-133 | no contract of its own: flip the animation flag, then one tick; its properties are Viewport.TriggerEffect |
| Viewport.AutoTickDrifts | julia_fractal.py:137-144 | an animated auto-mode tick lowers the imaginary part of c by exactly 0.0001 and keeps the real part, whatever the entries held (given entries of at most 100 characters, which the tick then overwrites completely), then moves the frame |
| Viewport.TriggerEffect | julia_fractal.py:130-137 | Start stops a running animation, changing nothing but the flag, and otherwise runs one tick at once |
| Viewport.Ticks | julia_fractal.py:177-182 | the movement part of n frames with no input in between keeps a two-component movement vector; its properties are Viewport.TicksKeep and Viewport.TicksDrift |
| Viewport.TicksKeep | julia_fractal.py:177-182 | repeated frames keep the movement vector, consistency and the centre's offset from the middle of the bounds |
| Viewport.TicksDrift | julia_fractal.py:177-182 | n frames with no input in between move the centre by n times the movement vector |
| Viewport.StopThenTickStill | julia_fractal.py:108-110 | after a stop, a frame leaves the view where it is |
| Fractal.JuliaFractal.constructor | julia_fractal.py:40-65 | the fields hold the initial state; the three channel arrays are new, one entry per pixel |
| Fractal.JuliaFractal.Automate | julia_fractal.py:104-106 | the new state is the Auto transition of the old one, and the invariant is kept |
| Fractal.JuliaFractal.StopMovement | julia_fractal.py:108-110 | the new state is the stop transition of the old one, and the invariant is kept |
| Fractal.JuliaFractal.UpdateSize | julia_fractal.py:112-119 | the new state is the zoom transition of the old one, centred, and the invariant is kept |
| Fractal.JuliaFractal.UpdatePos | julia_fractal.py:121-128 | the new state is the click transition of the old one, and the invariant is kept |
| Fractal.JuliaFractal.GpuComputeJuliaSet | julia_fractal.py:147-158 | the new channel arrays hold, pixel by pixel, the kernel's colours for the grid under the current c |
| Fractal.JuliaFractal.ReadConstant | julia_fractal.py:175-176 | c becomes the entries' numbers, 0 for an entry that is not a number; nothing else changes |
| Fractal.JuliaFractal.MoveFrame | julia_fractal.py:177-182 | the centre and the bounds move by the movement vector, and the invariant is kept |
| Fractal.JuliaFractal.DrawFractal | julia_fractal.py:173-195 | the new state is the draw transition of the old one; the frame is rendered if and only if neither size is 0, and then the channels show the current bounds' grid; otherwise they are unchanged |
| Fractal.JuliaFractal.StartAnimation | julia_fractal.py:135-144 | the new state is one animation tick of the old one; a frame is rendered only when animated and the size is not 0 |
| Fractal.JuliaFractal.AnimationTrigger | julia_fractal.py:130-133 | the new state is the Start transition of the old one; a frame is rendered only when this starts the animation and the size is not 0 |

## Left out

- The Tk window, its widgets, canvas and event binding, the main loop and the PIL image (`julia_fractal.py:17-39`, `99-102`, `196-198`). Events become their integer coordinates (`ex`, `ey`) and wheel `delta`.
- The `window.after` rescheduling of an animation tick (`julia_fractal.py:145`). `StartAnimation` is one tick; `Viewport.Ticks` describes the view part of repeated ticks with no input in between; c is not tracked across ticks (each tick re-reads it, and in auto mode lowers its imaginary part by 0.0001).
- PyCUDA compilation, host–device transfers and the parallel dispatch (`julia_fractal.py:67-69`, `97-98`, `149-158`). `RunKernel` runs the threads in sequence, which is equivalent because each thread writes only its own index.
- float32/float64 rounding. The orbit, the viewport and the grid use exact reals, so overflow to infinity and NaN orbits are not modelled. The threshold is the kernel's 2.0 on the squared modulus, not the conventional 4.0.
- NumPy `arange` stepping. Each axis is `lo + k·step` for n or n + 1 values of k, chosen by the `FrameInput` overshoot flags. An `arange` that yields fewer than n values is not modelled.
- `is_number` and `float()` parsing of the entry text (`julia_fractal.py:165-171`). A frame receives what the parse gives, as an `Option<real>`. In auto mode each entry has its first 100 characters deleted (`delete(0, 100)`, `julia_fractal.py:140-141`) and `str()` of the constant inserted in front of what is left (`julia_fractal.py:142-143`). The model assumes each entry holds at most 100 characters, so that it then holds exactly that text, and that the text reads back as the same number. A longer entry keeps a tail after the number (100 spaces and "5" become "0.365"; 101 letters make the entry not a number), which the model does not capture.
- A zero-size frame. `arange` then gets a zero step and raises, after the state part of the frame has already happened. `DrawFractal` returns `rendered == false` and leaves the channels as they were. The exception itself is not modelled.
- The conversion of kernel ints to the `uint8` image array and its reshape (`julia_fractal.py:159-163`). The channels stay unbounded ints, and red and green can exceed 255.
- Kernel.Abs: C's `abs` on `int` is modelled without overflow, because the kernel's arguments lie in −920..100.
- The unused `required_iterations`, `iterations`, `iterations_gpu` and `colours`.
