/** The frame buffer of the window (src/main.rs): a flat `u32` slice of `WIDTH * HEIGHT`
    pixels addressed with the origin at the centre and y pointing up, the line drawer that
    writes into it, and the startup frame the program paints before opening the window. */
module PixelCanvas {
  import opened Numeric
  import Math

  const WIDTH: int := 800
  const HEIGHT: int := 600

  /** The teal every pixel of the buffer starts with. */
  const BACKGROUND: u32 := 0x008080
  /** The colour of the three lines of the startup frame. */
  const WHITE: u32 := 0xFFFFFF

  /** A pixel position in canvas coordinates: `x` to the right, `y` up, `(0, 0)` in the middle. */
  datatype Pixel = Pixel(x: int, y: int)

  /** The slot that `set_pixel(x, y, _)` writes: row `HEIGHT/2 - y`, column `x + WIDTH/2`. */
  function PixelIndex(x: int, y: int): (i: int)
    ensures InBounds(x, y) ==> 0 <= i < WIDTH * HEIGHT
  {
    (HEIGHT / 2 - y) * WIDTH + (x + WIDTH / 2)
  }

  /** `set_pixel` does not panic: both normalised coordinates are non-negative (a negative one
      becomes a huge `usize`) and the slot lies inside a buffer of `len` pixels. */
  predicate IndexOk(x: int, y: int, len: int)
  {
    0 <= x + WIDTH / 2 && 0 <= HEIGHT / 2 - y && PixelIndex(x, y) < len
  }

  /** The pixels that are on screen: `-WIDTH/2 <= x < WIDTH/2` and `-HEIGHT/2 < y <= HEIGHT/2`. */
  predicate InBounds(x: int, y: int)
  {
    -WIDTH / 2 <= x < WIDTH / 2 && -HEIGHT / 2 < y <= HEIGHT / 2
  }

  /** The on-screen pixel that slot `i` of a full buffer shows. */
  function PixelOf(i: int): Pixel
  {
    Pixel(i % WIDTH - WIDTH / 2, HEIGHT / 2 - i / WIDTH)
  }

  /** An on-screen pixel has a slot inside a full buffer, and that slot shows it again. */
  lemma PixelIndexRoundTrip(x: int, y: int)
    requires InBounds(x, y)
    ensures IndexOk(x, y, WIDTH * HEIGHT) && 0 <= PixelIndex(x, y)
    ensures PixelOf(PixelIndex(x, y)) == Pixel(x, y)
  {
    var i := PixelIndex(x, y);
    assert i == (HEIGHT / 2 - y) * WIDTH + (x + WIDTH / 2);
    assert i / WIDTH == HEIGHT / 2 - y && i % WIDTH == x + WIDTH / 2;
  }

  /** Every slot of a full buffer belongs to exactly one on-screen pixel. */
  lemma PixelOfRoundTrip(i: int)
    requires 0 <= i < WIDTH * HEIGHT
    ensures InBounds(PixelOf(i).x, PixelOf(i).y)
    ensures PixelIndex(PixelOf(i).x, PixelOf(i).y) == i
  {
  }

  /** Distinct on-screen pixels are stored in distinct slots. */
  lemma PixelIndexInjective(p: Pixel, q: Pixel)
    requires InBounds(p.x, p.y) && InBounds(q.x, q.y)
    requires PixelIndex(p.x, p.y) == PixelIndex(q.x, q.y)
    ensures p == q
  {
    PixelIndexRoundTrip(p.x, p.y);
    PixelIndexRoundTrip(q.x, q.y);
  }

  /** Nothing checks `x` against the width: `x = WIDTH/2`, one past the right edge, is accepted
      and lands on the leftmost pixel of the row below. */
  lemma SetPixelWrapsRow()
    ensures IndexOk(WIDTH / 2, 0, WIDTH * HEIGHT) && !InBounds(WIDTH / 2, 0)
    ensures PixelIndex(WIDTH / 2, 0) == PixelIndex(-WIDTH / 2, -1)
  {
  }

  /** `<[u32] as Canvas>::set_pixel`. */
  method SetPixel(canvas: array<u32>, x: int, y: int, color: u32)
    requires IndexOk(x, y, canvas.Length)
    modifies canvas
    ensures canvas[..] == old(canvas[..])[PixelIndex(x, y) := color]
  {
    var hw := WIDTH / 2;
    var hh := HEIGHT / 2;
    var xNorm := x + hw;
    var yNorm := hh - y;
    canvas[yNorm * WIDTH + xNorm] := color;
  }

  /** Every pixel of `ps` may be written into a buffer of `len` pixels. */
  predicate AllIndexOk(ps: seq<Pixel>, len: int)
  {
    forall j :: 0 <= j < |ps| ==> IndexOk(ps[j].x, ps[j].y, len)
  }

  /** The buffer after `set_pixel` has written `color` at each pixel of `ps`, in order. */
  function Paint(buf: seq<u32>, ps: seq<Pixel>, color: u32): (r: seq<u32>)
    requires AllIndexOk(ps, |buf|)
    ensures |r| == |buf|
  {
    if ps == [] then buf
    else
      var last := ps[|ps| - 1];
      Paint(buf, ps[..|ps| - 1], color)[PixelIndex(last.x, last.y) := color]
  }

  /** Painting colours the slot of every pixel of `ps` and leaves every other slot alone. */
  lemma {:induction false} PaintAt(buf: seq<u32>, ps: seq<Pixel>, color: u32)
    requires AllIndexOk(ps, |buf|)
    ensures forall j :: 0 <= j < |ps| ==> Paint(buf, ps, color)[PixelIndex(ps[j].x, ps[j].y)] == color
    ensures forall i :: 0 <= i < |buf| && (forall j :: 0 <= j < |ps| ==> PixelIndex(ps[j].x, ps[j].y) != i) ==>
      Paint(buf, ps, color)[i] == buf[i]
  {
    if ps != [] {
      var init := ps[..|ps| - 1];
      PaintAt(buf, init, color);
      forall i | 0 <= i < |buf| && (forall j :: 0 <= j < |ps| ==> PixelIndex(ps[j].x, ps[j].y) != i)
        ensures Paint(buf, ps, color)[i] == buf[i]
      {
        assert forall j :: 0 <= j < |init| ==> init[j] == ps[j];
      }
    }
  }

  /** One more pixel painted is one more slot written. */
  lemma PaintStep(buf: seq<u32>, ps: seq<Pixel>, k: nat, color: u32)
    requires k < |ps| && AllIndexOk(ps, |buf|)
    ensures Paint(buf, ps[..k + 1], color) == Paint(buf, ps[..k], color)[PixelIndex(ps[k].x, ps[k].y) := color]
  {
    assert ps[..k + 1][..k] == ps[..k];
  }

  /** What src/main.rs `interpolate` returns: `[d0]` for an empty span, otherwise one value
      per integer of the half-open range `i0..i1` (none at all when `i1 < i0`). */
  function Interpolation(i0: int, d0: real, i1: int, d1: real): (r: seq<real>)
    ensures |r| == if i0 == i1 then 1 else Span(i0, i1)
  {
    if i0 == i1 then [d0] else Math.Ramp(d0, Math.Slope(i0, d0, i1, d1), Span(i0, i1))
  }

  /** src/main.rs `interpolate`: pushes `d` and adds the slope once per value of `i0..i1`. */
  method Interpolate(i0: int, d0: real, i1: int, d1: real) returns (values: seq<real>)
    ensures values == Interpolation(i0, d0, i1, d1)
  {
    if i0 == i1 {
      return [d0];
    }
    values := [];
    var a := (d1 - d0) / (i1 as real - i0 as real);
    var d := d0;
    var i := i0;
    while i < i1
      invariant values + Math.Ramp(d, a, Span(i, i1)) == Math.Ramp(d0, a, Span(i0, i1))
    {
      assert Math.Ramp(d, a, Span(i, i1)) == [d] + Math.Ramp(d + a, a, Span(i + 1, i1));
      values := values + [d];
      d := d + a;
      i := i + 1;
    }
  }

  /** The half-open interpolation of src/main.rs is the inclusive one of src/math.rs without
      its last value, `d1`; both start at `d0` and step by the same slope. */
  lemma InterpolationIsPrefix(i0: int, d0: real, i1: int, d1: real)
    requires i0 < i1
    ensures Interpolation(i0, d0, i1, d1) == Math.Interpolation(i0, d0, i1, d1)[..i1 - i0]
    ensures forall k :: 0 <= k < i1 - i0 ==> Interpolation(i0, d0, i1, d1)[k] == d0 + k as real * Math.Slope(i0, d0, i1, d1)
  {
    Math.RampPrefix(d0, Math.Slope(i0, d0, i1, d1), Span(i0, i1 + 1), Span(i0, i1));
    Math.InterpolationValues(i0, d0, i1, d1);
  }

  /** A value of the half-open interpolation lies between `d0` and `d1`. */
  lemma InterpolationBetween(i0: int, d0: real, i1: int, d1: real, k: nat)
    requires k < |Interpolation(i0, d0, i1, d1)|
    ensures var v := Interpolation(i0, d0, i1, d1)[k]; (d0 <= v <= d1) || (d1 <= v <= d0)
  {
    if i0 != i1 {
      InterpolationIsPrefix(i0, d0, i1, d1);
      Math.InterpolationBetween(i0, d0, i1, d1, k);
    }
  }

  /** The line is steeper along x than along y, so `draw_line` steps along x. */
  predicate XMajor(x0: int, y0: int, x1: int, y1: int)
  {
    Abs(x1 - x0) > Abs(y1 - y0)
  }

  /** The pixels `draw_line(x0, y0, x1, y1, _)` writes, in order. As in the source, the first
      endpoint's coordinate is replaced by the minimum and the second by the maximum of the
      new first one and the old second one, while the other coordinates are not swapped. */
  function LinePixels(x0: int, y0: int, x1: int, y1: int): seq<Pixel>
  {
    if XMajor(x0, y0, x1, y1) then
      var x0' := Min(x0, x1);
      var x1' := Max(x0', x1);
      var ys := Interpolation(x0', y0 as real, x1', y1 as real);
      seq(Span(x0', x1'), k requires 0 <= k < Span(x0', x1') => Pixel(x0' + k, Trunc(ys[k])))
    else
      var y0' := Min(y0, y1);
      var y1' := Max(y0', y1);
      var xs := Interpolation(y0', x0 as real, y1', x1 as real);
      seq(Span(y0', y1'), k requires 0 <= k < Span(y0', y1') => Pixel(Trunc(xs[k]), y0' + k))
  }

  /** `<[u32] as Canvas>::draw_line`. */
  method DrawLine(canvas: array<u32>, x0: int, y0: int, x1: int, y1: int, color: u32)
    requires AllIndexOk(LinePixels(x0, y0, x1, y1), canvas.Length)
    modifies canvas
    ensures canvas[..] == Paint(old(canvas[..]), LinePixels(x0, y0, x1, y1), color)
  {
    ghost var ps := LinePixels(x0, y0, x1, y1);
    if Abs(x1 - x0) > Abs(y1 - y0) {
      var x0' := Min(x0, x1);
      var x1' := Max(x0', x1);
      var ys := Interpolate(x0', y0 as real, x1', y1 as real);
      assert |ps| == x1' - x0';
      for x := x0' to x1'
        invariant canvas[..] == Paint(old(canvas[..]), ps[..x - x0'], color)
      {
        assert ps[x - x0'] == Pixel(x, Trunc(ys[x - x0']));
        PaintStep(old(canvas[..]), ps, x - x0', color);
        SetPixel(canvas, x, Trunc(ys[x - x0']), color);
      }
      assert ps[..x1' - x0'] == ps;
    } else {
      var y0' := Min(y0, y1);
      var y1' := Max(y0', y1);
      var xs := Interpolate(y0', x0 as real, y1', x1 as real);
      assert |ps| == y1' - y0';
      for y := y0' to y1'
        invariant canvas[..] == Paint(old(canvas[..]), ps[..y - y0'], color)
      {
        assert ps[y - y0'] == Pixel(Trunc(xs[y - y0']), y);
        PaintStep(old(canvas[..]), ps, y - y0', color);
        SetPixel(canvas, Trunc(xs[y - y0']), y, color);
      }
      assert ps[..y1' - y0'] == ps;
    }
  }

  /** Drawn left to right along x, the line has one pixel per column `x0 <= x < x1`, starts at
      `(x0, y0)`, and its y follows the interpolated value truncated toward zero. */
  lemma LineAlongX(x0: int, y0: int, x1: int, y1: int)
    requires XMajor(x0, y0, x1, y1) && x0 <= x1
    ensures |LinePixels(x0, y0, x1, y1)| == x1 - x0 && x0 < x1
    ensures LinePixels(x0, y0, x1, y1)[0] == Pixel(x0, y0)
    ensures forall k :: 0 <= k < x1 - x0 ==>
      LinePixels(x0, y0, x1, y1)[k] == Pixel(x0 + k, Trunc(y0 as real + k as real * Math.Slope(x0, y0 as real, x1, y1 as real)))
  {
    InterpolationIsPrefix(x0, y0 as real, x1, y1 as real);
    TruncOfInt(y0);
  }

  /** Drawn bottom to top along y, the line has one pixel per row `y0 <= y < y1`, starts at
      `(x0, y0)`, and its x follows the interpolated value truncated toward zero. */
  lemma LineAlongY(x0: int, y0: int, x1: int, y1: int)
    requires !XMajor(x0, y0, x1, y1) && y0 < y1
    ensures |LinePixels(x0, y0, x1, y1)| == y1 - y0
    ensures LinePixels(x0, y0, x1, y1)[0] == Pixel(x0, y0)
    ensures forall k :: 0 <= k < y1 - y0 ==>
      LinePixels(x0, y0, x1, y1)[k] == Pixel(Trunc(x0 as real + k as real * Math.Slope(y0, x0 as real, y1, x1 as real)), y0 + k)
  {
    InterpolationIsPrefix(y0, x0 as real, y1, x1 as real);
    TruncOfInt(x0);
  }

  /** `draw_line` writes nothing when the endpoints come right to left along x, top to bottom
      along y, or coincide. */
  lemma LineBackwardsIsEmpty(x0: int, y0: int, x1: int, y1: int)
    requires if XMajor(x0, y0, x1, y1) then x1 < x0 else y1 <= y0
    ensures LinePixels(x0, y0, x1, y1) == []
  {
  }

  /** The line drawn with its endpoints put in increasing order along the stepping axis first,
      so that the order in which the endpoints are given does not matter. */
  function OrderedLinePixels(x0: int, y0: int, x1: int, y1: int): seq<Pixel>
  {
    if (XMajor(x0, y0, x1, y1) && x1 < x0) || (!XMajor(x0, y0, x1, y1) && y1 < y0) then
      LinePixels(x1, y1, x0, y0)
    else
      LinePixels(x0, y0, x1, y1)
  }

  /** With the endpoints ordered, the line has one pixel for every column (or, when it steps
      along y, every row) from the lower endpoint up to, not including, the higher one, and it
      is the same line whichever endpoint is given first. */
  lemma OrderedLineCoversSpan(x0: int, y0: int, x1: int, y1: int)
    ensures XMajor(x0, y0, x1, y1) ==> |OrderedLinePixels(x0, y0, x1, y1)| == Abs(x1 - x0)
    ensures XMajor(x0, y0, x1, y1) ==> forall k :: 0 <= k < Abs(x1 - x0) ==>
      OrderedLinePixels(x0, y0, x1, y1)[k].x == Min(x0, x1) + k
    ensures !XMajor(x0, y0, x1, y1) ==> |OrderedLinePixels(x0, y0, x1, y1)| == Abs(y1 - y0)
    ensures !XMajor(x0, y0, x1, y1) ==> forall k :: 0 <= k < Abs(y1 - y0) ==>
      OrderedLinePixels(x0, y0, x1, y1)[k].y == Min(y0, y1) + k
    ensures OrderedLinePixels(x0, y0, x1, y1) == OrderedLinePixels(x1, y1, x0, y0)
  {
    if XMajor(x0, y0, x1, y1) {
      if x1 < x0 {
        LineAlongX(x1, y1, x0, y0);
      } else {
        LineAlongX(x0, y0, x1, y1);
      }
    } else if y1 < y0 {
      LineAlongY(x1, y1, x0, y0);
    } else if y0 < y1 {
      LineAlongY(x0, y0, x1, y1);
    }
  }

  /** A line between two on-screen endpoints stays on screen, so drawing it never panics. */
  lemma LineInBounds(x0: int, y0: int, x1: int, y1: int)
    requires InBounds(x0, y0) && InBounds(x1, y1)
    ensures forall j :: 0 <= j < |LinePixels(x0, y0, x1, y1)| ==>
      InBounds(LinePixels(x0, y0, x1, y1)[j].x, LinePixels(x0, y0, x1, y1)[j].y)
    ensures AllIndexOk(LinePixels(x0, y0, x1, y1), WIDTH * HEIGHT)
  {
    var ps := LinePixels(x0, y0, x1, y1);
    forall j | 0 <= j < |ps| ensures InBounds(ps[j].x, ps[j].y)
    {
      if XMajor(x0, y0, x1, y1) {
        var x0' := Min(x0, x1);
        var x1' := Max(x0', x1);
        InterpolationBetween(x0', y0 as real, x1', y1 as real, j);
        TruncBetween(Min(y0, y1), Interpolation(x0', y0 as real, x1', y1 as real)[j], Max(y0, y1));
      } else {
        var y0' := Min(y0, y1);
        var y1' := Max(y0', y1);
        InterpolationBetween(y0', x0 as real, y1', x1 as real, j);
        TruncBetween(Min(x0, x1), Interpolation(y0', x0 as real, y1', x1 as real)[j], Max(x0, x1));
      }
    }
    forall j | 0 <= j < |ps| ensures IndexOk(ps[j].x, ps[j].y, WIDTH * HEIGHT)
    {
      PixelIndexRoundTrip(ps[j].x, ps[j].y);
    }
  }

  /** The `for b in canvas.iter_mut()` loop of `main`: every slot becomes the background. */
  method FillBackground(canvas: array<u32>)
    modifies canvas
    ensures canvas[..] == seq(canvas.Length, _ => BACKGROUND)
  {
    for i := 0 to canvas.Length
      invariant forall k :: 0 <= k < i ==> canvas[k] == BACKGROUND
    {
      canvas[i] := BACKGROUND;
    }
  }

  /** The three lines of the startup frame. */
  const Line1: seq<Pixel> := LinePixels(-200, -100, 240, 120)
  const Line2: seq<Pixel> := LinePixels(-50, -200, 60, 240)
  const Line3: seq<Pixel> := LinePixels(10, 10, 200, 20)

  /** All three lines of the startup frame lie on screen. */
  lemma StartupLinesInBounds()
    ensures AllIndexOk(Line1, WIDTH * HEIGHT) && AllIndexOk(Line2, WIDTH * HEIGHT)
    ensures AllIndexOk(Line3, WIDTH * HEIGHT)
  {
    LineInBounds(-200, -100, 240, 120);
    LineInBounds(-50, -200, 60, 240);
    LineInBounds(10, 10, 200, 20);
  }

  /** The picture of the startup frame: the background with the three white lines over it. */
  function StartupPicture(): (r: seq<u32>)
    ensures |r| == WIDTH * HEIGHT
  {
    StartupLinesInBounds();
    var bg := seq(WIDTH * HEIGHT, _ => BACKGROUND);
    var one := Paint(bg, Line1, WHITE);
    var two := Paint(one, Line2, WHITE);
    Paint(two, Line3, WHITE)
  }

  /** Slot `i` is the slot of some pixel of `ps`. */
  predicate Covers(ps: seq<Pixel>, i: int)
  {
    exists j :: 0 <= j < |ps| && PixelIndex(ps[j].x, ps[j].y) == i
  }

  /** After painting `ps`, a slot holds `color` if some pixel of `ps` is stored there, and
      its old value otherwise. */
  lemma PaintSlot(buf: seq<u32>, ps: seq<Pixel>, color: u32, i: int)
    requires AllIndexOk(ps, |buf|) && 0 <= i < |buf|
    ensures Paint(buf, ps, color)[i] == if Covers(ps, i) then color else buf[i]
  {
    PaintAt(buf, ps, color);
    if Covers(ps, i) {
      var j :| 0 <= j < |ps| && PixelIndex(ps[j].x, ps[j].y) == i;
    }
  }

  /** Three lines painted in one colour over a background: a slot is that colour exactly when
      one of the lines covers it, and keeps the background otherwise. */
  lemma ThreeLinesSlot(bg: seq<u32>, l1: seq<Pixel>, l2: seq<Pixel>, l3: seq<Pixel>, color: u32, i: int)
    requires AllIndexOk(l1, |bg|) && AllIndexOk(l2, |bg|) && AllIndexOk(l3, |bg|) && 0 <= i < |bg|
    ensures Paint(Paint(Paint(bg, l1, color), l2, color), l3, color)[i] ==
      if Covers(l1, i) || Covers(l2, i) || Covers(l3, i) then color else bg[i]
  {
    var one := Paint(bg, l1, color);
    var two := Paint(one, l2, color);
    PaintSlot(bg, l1, color, i);
    PaintSlot(one, l2, color, i);
    PaintSlot(two, l3, color, i);
  }

  /** In the startup picture a slot is white exactly when one of the three lines passes
      through it; every other slot is the background. */
  lemma StartupPictureContents(i: int)
    requires 0 <= i < WIDTH * HEIGHT
    ensures StartupPicture()[i] ==
      if Covers(Line1, i) || Covers(Line2, i) || Covers(Line3, i) then WHITE else BACKGROUND
  {
    StartupLinesInBounds();
    var bg := seq(WIDTH * HEIGHT, _ => BACKGROUND);
    assert StartupPicture() == Paint(Paint(Paint(bg, Line1, WHITE), Line2, WHITE), Line3, WHITE);
    ThreeLinesSlot(bg, Line1, Line2, Line3, WHITE, i);
  }

  /** The frame `main` builds before opening the window: a background-filled buffer with the
      three white lines drawn over it in order. */
  method StartupFrame() returns (canvas: array<u32>)
    ensures canvas[..] == StartupPicture()
  {
    canvas := new u32[WIDTH * HEIGHT];
    FillBackground(canvas);
    StartupLinesInBounds();
    DrawLine(canvas, -200, -100, 240, 120, WHITE);
    DrawLine(canvas, -50, -200, 60, 240, WHITE);
    DrawLine(canvas, 10, 10, 200, 20, WHITE);
  }
}
