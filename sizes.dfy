/**
 * The `AspectRatio` extension of CGSize (YPAssetZoomableView.swift, lines 250-298).
 * CGFloat is modelled as an exact `real`; every size the model reasons about is positive.
 */
module Sizes {

  /** A CGSize: a width and a height. */
  datatype Size = Size(width: real, height: real) {
    /** Both dimensions strictly positive. */
    predicate Positive() { width > 0.0 && height > 0.0 }
  }

  /** `AspectRatio.Orientation`. */
  datatype Orientation = Landscape | Portrait | Square

  /** `aspectRatio()` without a precision: width over height. */
  function AspectRatio(s: Size): (r: real)
    requires s.Positive()
    ensures r > 0.0
    ensures r * s.height == s.width
  {
    s.width / s.height
  }

  /**
   * `orientation`: classifies the aspect ratio against 1.0, exactly, with no
   * tolerance. The class is decided by comparing the sides: landscape exactly
   * when wider than tall, portrait exactly when taller than wide, and so square,
   * the remaining constructor, exactly when the sides are equal.
   */
  function OrientationOf(s: Size): (o: Orientation)
    requires s.Positive()
    ensures o == Landscape <==> s.width > s.height
    ensures o == Portrait <==> s.width < s.height
  {
    var aspect := AspectRatio(s);
    RatioVersusOne(s.width, s.height);
    if aspect > 1.0 then Landscape
    else if aspect < 1.0 then Portrait
    else Square
  }

  /** `flipped()`: width and height exchanged. */
  function Flipped(s: Size): (f: Size)
    ensures f.Positive() <==> s.Positive()
    ensures f.width * f.height == s.width * s.height
  {
    Size(s.height, s.width)
  }

  /** `width(for:)`: the width that has `s`'s proportions at the given height. */
  function WidthFor(s: Size, height: real): (w: real)
    requires s.Positive()
    ensures w * s.height == height * s.width
  {
    height * AspectRatio(s)
  }

  /** `height(for:)`: the height that has `s`'s proportions at the given width. */
  function HeightFor(s: Size, width: real): (h: real)
    requires s.Positive()
    ensures h * s.width == width * s.height
  {
    var r := AspectRatio(s);
    assert width == (width / r) * r;
    width / r
  }

  /** The preset ratios `square`, `standard`, `wideScreen`, `theater` and `imax`. */
  const SquareRatio := Size(1.0, 1.0)
  const StandardRatio := Size(4.0, 3.0)
  const WideScreenRatio := Size(16.0, 9.0)
  const TheaterRatio := Size(21.0, 9.0)
  const ImaxRatio := Size(1.9, 1.0)

  /** The presets: `square` is square, the four others landscape, each with the ratio its name promises. */
  lemma PresetRatios()
    ensures OrientationOf(SquareRatio) == Square && AspectRatio(SquareRatio) == 1.0
    ensures OrientationOf(StandardRatio) == Landscape && AspectRatio(StandardRatio) == 4.0 / 3.0
    ensures OrientationOf(WideScreenRatio) == Landscape && AspectRatio(WideScreenRatio) == 16.0 / 9.0
    ensures OrientationOf(TheaterRatio) == Landscape && AspectRatio(TheaterRatio) == 21.0 / 9.0
    ensures OrientationOf(ImaxRatio) == Landscape && AspectRatio(ImaxRatio) == 1.9
  {
  }

  /** A quotient by a positive number exceeds, falls short of or equals 1 as the dividend compares with the divisor. */
  lemma RatioVersusOne(w: real, h: real)
    requires h > 0.0
    ensures w / h > 1.0 <==> w > h
    ensures w / h < 1.0 <==> w < h
  {
    var q := w / h;
    assert q * h == w;
    if q > 1.0 {
      PositiveProduct(q - 1.0, h);
    } else if q < 1.0 {
      PositiveProduct(1.0 - q, h);
    } else {
      assert q == 1.0;
    }
  }

  /** The product of two positive reals is positive. */
  lemma PositiveProduct(a: real, b: real)
    requires a > 0.0 && b > 0.0
    ensures a * b > 0.0
  {
  }

  /** A non-zero common factor can be cancelled. */
  lemma CancelFactor(x: real, y: real, c: real)
    requires c != 0.0 && x * c == y * c
    ensures x == y
  {
    assert (x - y) * c == 0.0;
  }

  /** A positive size whose width is `r` times its height has aspect ratio `r`. */
  lemma ProportionalRatio(s: Size, r: real)
    requires s.Positive() && s.width == r * s.height
    ensures AspectRatio(s) == r
  {
    CancelFactor(AspectRatio(s), r, s.height);
  }

  /** Flipping twice gives back the original size. */
  lemma FlippedInvolution(s: Size)
    ensures Flipped(Flipped(s)) == s
  {
  }

  /**
   * The flipped size has the reciprocal aspect ratio, and flipping exchanges
   * landscape and portrait while keeping square.
   */
  lemma FlippedAspectRatio(s: Size)
    requires s.Positive()
    ensures AspectRatio(Flipped(s)) == 1.0 / AspectRatio(s)
    ensures OrientationOf(Flipped(s)) ==
      match OrientationOf(s)
      case Landscape => Portrait
      case Portrait => Landscape
      case Square => Square
  {
    var r, q := AspectRatio(s), AspectRatio(Flipped(s));
    assert r * s.height == s.width && q * s.width == s.height;
    calc {
      (r * q) * s.width;
      r * (q * s.width);
      r * s.height;
      s.width;
    }
    assert r * q == 1.0 by {
      PositiveProduct(s.width, 1.0);
      CancelFactor(r * q, 1.0, s.width);
    }
  }

  /** `height(for:)` undoes `width(for:)`, and the other way round. */
  lemma HeightForWidthFor(s: Size, h: real, w: real)
    requires s.Positive()
    ensures HeightFor(s, WidthFor(s, h)) == h
    ensures WidthFor(s, HeightFor(s, w)) == w
  {
  }
}
