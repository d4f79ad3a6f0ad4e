/** The per-pixel escape-time kernel and its palette.

    For a start point z0 the kernel iterates z <- z² + c for curiter = 0 .. maxiter-1,
    testing the squared modulus of the point it is about to update; at the first
    curiter where that exceeds 2.0 it writes a colour computed from curiter and stops.
    A pixel that never escapes stays black. */
module Kernel {
  import opened Optional
  import opened Plane

  /** The point the kernel holds in (real, imag) at the start of iteration k. */
  function Orbit(z0: Complex, c: Complex, k: nat): Complex
  {
    if k == 0 then z0 else Step(Orbit(z0, c, k - 1), c)
  }

  /** k is the curiter at which the kernel breaks: below the budget, the orbit point
      there fails the test, and no earlier orbit point does. */
  predicate IsFirstEscape(z0: Complex, c: Complex, maxiter: int, k: nat)
  {
    k < maxiter && Escaped(Orbit(z0, c, k)) &&
    forall j :: 0 <= j < k ==> !Escaped(Orbit(z0, c, j))
  }

  /** The first index in [from, maxiter) whose orbit point escapes, if any. */
  function EscapeFrom(z0: Complex, c: Complex, from: nat, maxiter: int): (r: Option<nat>)
    decreases maxiter - from
    ensures r.Some? ==>
      from <= r.value < maxiter && Escaped(Orbit(z0, c, r.value)) &&
      forall j :: from <= j < r.value ==> !Escaped(Orbit(z0, c, j))
    ensures r.None? ==> forall j :: from <= j < maxiter ==> !Escaped(Orbit(z0, c, j))
  {
    if from >= maxiter then None
    else if Escaped(Orbit(z0, c, from)) then Some(from)
    else EscapeFrom(z0, c, from + 1, maxiter)
  }

  /** The curiter at which the kernel leaves its loop for start point z0, or None when
      the loop runs out of budget. */
  function EscapeTime(z0: Complex, c: Complex, maxiter: int): (r: Option<nat>)
    ensures r.Some? ==> IsFirstEscape(z0, c, maxiter, r.value)
    ensures r.None? ==> forall j :: 0 <= j < maxiter ==> !Escaped(Orbit(z0, c, j))
  {
    EscapeFrom(z0, c, 0, maxiter)
  }

  /** EscapeTime is exactly the first escape: it returns k if and only if k is it. */
  lemma EscapeTimeIsFirstEscape(z0: Complex, c: Complex, maxiter: int, k: nat)
    ensures EscapeTime(z0, c, maxiter) == Some(k) <==> IsFirstEscape(z0, c, maxiter, k)
  {
    var r := EscapeTime(z0, c, maxiter);
    if IsFirstEscape(z0, c, maxiter, k) {
      assert Escaped(Orbit(z0, c, k));
      if r.Some? {
        assert !(r.value < k);
        assert !(k < r.value);
      }
    }
  }

  /** A start point already beyond the threshold escapes at curiter = 0, whatever c is,
      as soon as the budget allows one iteration. */
  lemma ImmediateEscape(z0: Complex, c: Complex, maxiter: int)
    requires Escaped(z0) && maxiter > 0
    ensures EscapeTime(z0, c, maxiter) == Some(0)
  {
  }

  /** With no budget (maxiter <= 0) nothing escapes. */
  lemma NoBudgetNoEscape(z0: Complex, c: Complex, maxiter: int)
    requires maxiter <= 0
    ensures EscapeTime(z0, c, maxiter) == None
  {
  }

  /** With c = 0 the origin is a fixed point of the recurrence. */
  lemma {:induction false} OriginIsFixed(k: nat)
    ensures Orbit(Zero, Zero, k) == Zero
  {
    if k > 0 {
      OriginIsFixed(k - 1);
    }
  }

  /** The origin with c = 0 never escapes, for any budget. */
  lemma OriginNeverEscapes(maxiter: int)
    ensures EscapeTime(Zero, Zero, maxiter) == None
  {
    forall k: nat
      ensures !Escaped(Orbit(Zero, Zero, k))
    {
      OriginIsFixed(k);
    }
  }

  datatype Rgb = Rgb(red: int, green: int, blue: int)

  const Black: Rgb := Rgb(0, 0, 0)

  /** C's abs on int (no overflow arises for the kernel's small arguments). */
  function Abs(x: int): (r: nat)
    ensures r == x || r == -x
  {
    if x < 0 then -x else x
  }

  /** The colour the kernel writes for a pixel that escapes at curiter = k.
      Channels are left as the kernel's ints; they can exceed 255. */
  function Palette(k: nat): (p: Rgb)
    ensures p.red % 2 == 0 && 0 <= p.red <= 430
    ensures 0 <= p.green <= 935
    ensures p.blue % 7 == 0 && 0 <= p.blue <= 217
    ensures k == 0 ==> p == Rgb(80, 100, 0)
  {
    var value := k % 256;
    Rgb(Abs(80 - 2 * value), Abs(100 - 4 * value) + k % 16, k % 32 * 7)
  }

  /** No escaped pixel is painted black: the green channel is never 0, because the
      only value that zeroes |100 - 4v| is v = 25, where k % 16 is 9. */
  lemma PaletteNeverBlack(k: nat)
    ensures Palette(k).green > 0
  {
    var value := k % 256;
    if value == 25 {
      assert k == 16 * (16 * (k / 256) + 1) + 9;
      assert k % 16 == 9;
    }
  }

  /** The palette repeats every 256 iterations. */
  lemma PalettePeriodic(k: nat)
    ensures Palette(k + 256) == Palette(k)
  {
    PeriodMods(k);
  }

  lemma PeriodMods(k: nat)
    ensures (k + 256) % 256 == k % 256
    ensures (k + 256) % 16 == k % 16
    ensures (k + 256) % 32 == k % 32
  {
    assert k + 256 == 256 * (k / 256 + 1) + k % 256;
    assert k + 256 == 16 * (k / 16 + 16) + k % 16;
    assert k + 256 == 32 * (k / 32 + 8) + k % 32;
  }

  /** The colour of a pixel whose escape time is e. */
  function PixelColour(e: Option<nat>): (p: Rgb)
  {
    match e
    case None => Black
    case Some(k) => Palette(k)
  }

  /** A pixel is black exactly when its orbit never escapes within the budget. */
  lemma BlackIffNoEscape(z0: Complex, c: Complex, maxiter: int)
    ensures PixelColour(EscapeTime(z0, c, maxiter)) == Black <==> EscapeTime(z0, c, maxiter).None?
  {
    var e := EscapeTime(z0, c, maxiter);
    if e.Some? {
      PaletteNeverBlack(e.value);
    }
  }

  /** The arithmetic of one kernel iteration on the current point re + imag·i: its two
      squares, whose sum is the escape test's operand, and its successor under z² + c. */
  method Iterate(re: real, imag: real, cReal: real, cImaginary: real)
    returns (real2: real, imag2: real, nreal: real, nimag: real)
    ensures real2 + imag2 == Norm2(Complex(re, imag))
    ensures Complex(nreal, nimag) == Add(Mul(Complex(re, imag), Complex(re, imag)), Complex(cReal, cImaginary))
  {
    real2 := re * re;
    imag2 := imag * imag;
    nreal := real2 - imag2 + cReal;
    nimag := 2.0 * re * imag + cImaginary;
  }

  /** The kernel body for thread i: clear pixel i, then iterate until escape or budget. */
  method KernelBody(q: array<Complex>, red: array<int>, green: array<int>, blue: array<int>,
                    maxiter: int, cReal: real, cImaginary: real, i: nat)
    requires q.Length == red.Length == green.Length == blue.Length
    requires i < q.Length
    requires red != green && green != blue && red != blue
    modifies red, green, blue
    ensures Rgb(red[i], green[i], blue[i]) == PixelColour(EscapeTime(q[i], Complex(cReal, cImaginary), maxiter))
    ensures forall j :: 0 <= j < red.Length && j != i ==>
      red[j] == old(red[j]) && green[j] == old(green[j]) && blue[j] == old(blue[j])
  {
    ghost var z0, c := q[i], Complex(cReal, cImaginary);
    var nreal: real := 0.0;
    var re := q[i].re;
    var imag := q[i].im;
    red[i] := 0;
    green[i] := 0;
    blue[i] := 0;
    var curiter := 0;
    while curiter < maxiter
      invariant 0 <= curiter
      invariant Complex(re, imag) == Orbit(z0, c, curiter)
      invariant forall j :: 0 <= j < curiter ==> !Escaped(Orbit(z0, c, j))
      invariant red[i] == 0 && green[i] == 0 && blue[i] == 0
      invariant forall j :: 0 <= j < red.Length && j != i ==>
        red[j] == old(red[j]) && green[j] == old(green[j]) && blue[j] == old(blue[j])
    {
      var real2, imag2;
      real2, imag2, nreal, imag := Iterate(re, imag, cReal, cImaginary);
      re := nreal;
      if real2 + imag2 > 2.0 {
        assert IsFirstEscape(z0, c, maxiter, curiter);
        EscapeTimeIsFirstEscape(z0, c, maxiter, curiter);
        var colour := Palette(curiter);
        red[i] := colour.red;
        green[i] := colour.green;
        blue[i] := colour.blue;
        break;
      }
      curiter := curiter + 1;
    }
  }

  /** The channels hold, pixel by pixel, the kernel's colours for the start points zs. */
  ghost predicate Paints(zs: seq<Complex>, red: array<int>, green: array<int>, blue: array<int>,
                         c: Complex, maxiter: int)
    reads red, green, blue
  {
    red.Length == green.Length == blue.Length == |zs| &&
    forall i :: 0 <= i < |zs| ==>
      Rgb(red[i], green[i], blue[i]) == PixelColour(EscapeTime(zs[i], c, maxiter))
  }

  /** The elementwise dispatch, run sequentially: every thread index in turn. */
  method RunKernel(q: array<Complex>, red: array<int>, green: array<int>, blue: array<int>,
                   maxiter: int, cReal: real, cImaginary: real)
    requires q.Length == red.Length == green.Length == blue.Length
    requires red != green && green != blue && red != blue
    modifies red, green, blue
    ensures Paints(q[..], red, green, blue, Complex(cReal, cImaginary), maxiter)
  {
    var i := 0;
    while i < q.Length
      invariant 0 <= i <= q.Length
      invariant forall j :: 0 <= j < i ==>
        Rgb(red[j], green[j], blue[j]) == PixelColour(EscapeTime(q[j], Complex(cReal, cImaginary), maxiter))
    {
      KernelBody(q, red, green, blue, maxiter, cReal, cImaginary, i);
      i := i + 1;
    }
  }
}
