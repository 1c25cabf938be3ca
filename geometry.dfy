/**
 * The arithmetic under YPAssetZoomableView: the frame `setAssetFrame` gives the
 * asset view, the minimum zoom it sets, the fit zoom of `calculateZoomScale` and
 * the origin `centerAssetView` computes. The methods of the view class are
 * proved against these functions.
 */
module Geometry {
  import opened Optional
  import opened Sizes

  /** A CGPoint (a frame origin or a content offset). */
  datatype Point = Point(x: real, y: real)

  /** A CGRect. */
  datatype Rect = Rect(origin: Point, size: Size)

  /**
   * The frame size `setAssetFrame` gives the asset view for an image of size
   * `image` in a viewport of size `viewport`: a landscape image spans the
   * viewport's width, a portrait or square one its height, and the frame keeps
   * the image's proportions.
   */
  function AssetFrameSize(image: Size, viewport: Size): (f: Size)
    requires image.Positive() && viewport.Positive()
    ensures f.Positive()
    ensures AspectRatio(f) == AspectRatio(image)
    ensures OrientationOf(image) == Landscape ==> f.width == viewport.width
    ensures OrientationOf(image) != Landscape ==> f.height == viewport.height
  {
    var r := AspectRatio(image);
    match OrientationOf(image)
    case Landscape =>
      var f := Size(viewport.width, viewport.width / r);
      assert f.width == r * f.height;
      ProportionalRatio(f, r);
      f
    case _ =>
      var f := Size(viewport.height * r, viewport.height);
      PositiveProduct(viewport.height, r);
      ProportionalRatio(f, r);
      f
  }

  /**
   * The minimum (and initial) zoom `setAssetFrame` sets. It is 1 for a landscape
   * image and whenever no minimum width is configured. Otherwise it is the zoom
   * at which the displayed frame is `minWidth` wide in a viewport whose height
   * is scaled to its width (for a square viewport: exactly `minWidth` wide).
   */
  function MinimumZoom(image: Size, viewport: Size, minWidth: Option<real>): (z: real)
    requires image.Positive() && viewport.Positive()
    ensures OrientationOf(image) == Landscape || minWidth.None? ==> z == 1.0
    ensures OrientationOf(image) != Landscape && minWidth.Some? ==>
              z * AssetFrameSize(image, viewport).width * viewport.width == minWidth.value * viewport.height
  {
    if OrientationOf(image) == Landscape then 1.0
    else
      match minWidth
      case None => 1.0
      case Some(m) =>
        var k := m / viewport.width;
        var z := (image.height / image.width) * k;
        MinimumZoomWidth(image, viewport, m, z);
        z
  }

  /** The arithmetic behind the second postcondition of MinimumZoom. */
  lemma MinimumZoomWidth(image: Size, viewport: Size, m: real, z: real)
    requires image.Positive() && viewport.Positive()
    requires OrientationOf(image) != Landscape
    requires z == (image.height / image.width) * (m / viewport.width)
    ensures z * AssetFrameSize(image, viewport).width * viewport.width == m * viewport.height
  {
    var r := AspectRatio(image);
    var fw := AssetFrameSize(image, viewport).width;
    assert fw == viewport.height * r;
    var inv := image.height / image.width;
    assert inv * image.width == image.height;
    assert inv * r == 1.0 by {
      calc {
        (inv * r) * image.height;
        inv * (r * image.height);
        inv * image.width;
        image.height;
        1.0 * image.height;
      }
      CancelFactor(inv * r, 1.0, image.height);
    }
    var k := m / viewport.width;
    assert k * viewport.width == m;
    calc {
      z * fw * viewport.width;
      (inv * k) * (viewport.height * r) * viewport.width;
      (inv * r) * (k * viewport.width) * viewport.height;
      m * viewport.height;
    }
  }

  /**
   * The zoom at which a displayed image fills the viewport's proportions
   * (`calculateZoomScale` once an image is loaded): for a landscape image its
   * ratio over the viewport's, otherwise the flipped image's ratio times the
   * viewport's.
   */
  function AspectFillScale(image: Size, viewport: Size): (z: real)
    requires image.Positive() && viewport.Positive()
    ensures z > 0.0
  {
    match OrientationOf(image)
    case Landscape => AspectRatio(image) / AspectRatio(viewport)
    case _ =>
      PositiveProduct(AspectRatio(Flipped(image)), AspectRatio(viewport));
      AspectRatio(Flipped(image)) * AspectRatio(viewport)
  }

  /**
   * `calculateZoomScale`: the fill zoom of the image shown on the active view, or
   * 1.0 when that view shows no image.
   */
  function CalculateZoomScale(image: Option<Size>, viewport: Size): (z: real)
    requires viewport.Positive() && (image.Some? ==> image.value.Positive())
    ensures image.None? ==> z == 1.0
    ensures image.Some? ==> z > 0.0
  {
    match image
    case None => 1.0
    case Some(img) => AspectFillScale(img, viewport)
  }

  /**
   * `centerAssetView`'s origin for a frame of size `size` in `bounds`: on each
   * axis where the frame is smaller than the bounds, the frame's centre is the
   * bounds' centre and the frame lies inside the bounds; on the other axes the
   * origin is 0. The origin is never negative.
   */
  function CenteredOrigin(size: Size, bounds: Size): (o: Point)
    ensures o.x >= 0.0 && o.y >= 0.0
    ensures size.width < bounds.width ==>
              o.x + size.width / 2.0 == bounds.width / 2.0 && o.x + size.width <= bounds.width
    ensures size.width >= bounds.width ==> o.x == 0.0
    ensures size.height < bounds.height ==>
              o.y + size.height / 2.0 == bounds.height / 2.0 && o.y + size.height <= bounds.height
    ensures size.height >= bounds.height ==> o.y == 0.0
  {
    Point(
      if size.width < bounds.width then (bounds.width - size.width) / 2.0 else 0.0,
      if size.height < bounds.height then (bounds.height - size.height) / 2.0 else 0.0)
  }

  /** A frame moved to its centred origin, its size kept. */
  function CenterFrame(frame: Rect, bounds: Size): Rect {
    Rect(CenteredOrigin(frame.size, bounds), frame.size)
  }

  /**
   * The whole frame `setAssetFrame` leaves on the asset view: the asset frame
   * size, already centred (centring it again changes nothing), at a
   * non-negative origin.
   */
  function AssetFrame(image: Size, viewport: Size): (fr: Rect)
    requires image.Positive() && viewport.Positive()
    ensures fr.size == AssetFrameSize(image, viewport)
    ensures CenterFrame(fr, viewport) == fr
    ensures fr.origin.x >= 0.0 && fr.origin.y >= 0.0
  {
    var size := AssetFrameSize(image, viewport);
    Rect(CenteredOrigin(size, viewport), size)
  }

  /** Centring keeps the size and is idempotent. */
  lemma CenterFrameIdempotent(frame: Rect, bounds: Size)
    ensures CenterFrame(frame, bounds).size == frame.size
    ensures CenterFrame(CenterFrame(frame, bounds), bounds) == CenterFrame(frame, bounds)
  {
  }

  /**
   * At the fill zoom the displayed frame matches the viewport on the axis the
   * frame does not already span: its height for a landscape image, its width
   * otherwise.
   */
  lemma AspectFillMatchesViewport(image: Size, viewport: Size)
    requires image.Positive() && viewport.Positive()
    ensures var f, z := AssetFrameSize(image, viewport), AspectFillScale(image, viewport);
            if OrientationOf(image) == Landscape then f.height * z == viewport.height
            else f.width * z == viewport.width
  {
    var f, z := AssetFrameSize(image, viewport), AspectFillScale(image, viewport);
    var r, rv := AspectRatio(image), AspectRatio(viewport);
    assert rv * viewport.height == viewport.width;
    if OrientationOf(image) == Landscape {
      assert f.height * r == viewport.width;
      assert z * rv == r;
      assert f.height * z * rv == viewport.height * rv by {
        calc {
          f.height * z * rv;
          f.height * (z * rv);
          f.height * r;
          viewport.width;
          viewport.height * rv;
        }
      }
      CancelFactor(f.height * z, viewport.height, rv);
    } else {
      FlippedAspectRatio(image);
      var q := AspectRatio(Flipped(image));
      assert q * r == 1.0;
      assert f.width == viewport.height * r;
      calc {
        f.width * z;
        (viewport.height * r) * (q * rv);
        (q * r) * (viewport.height * rv);
        viewport.width;
      }
    }
  }

  /**
   * In a square viewport the fill zoom is at least 1 and the frame displayed at
   * that zoom covers the whole viewport: no letterboxing on either axis.
   */
  lemma AspectFillCoversSquareViewport(image: Size, viewport: Size)
    requires image.Positive() && viewport.Positive() && viewport.width == viewport.height
    ensures var f, z := AssetFrameSize(image, viewport), AspectFillScale(image, viewport);
            z >= 1.0 && f.width * z >= viewport.width && f.height * z >= viewport.height
  {
    var f, z := AssetFrameSize(image, viewport), AspectFillScale(image, viewport);
    var r := AspectRatio(image);
    AspectFillMatchesViewport(image, viewport);
    ProportionalRatio(viewport, 1.0);
    if OrientationOf(image) == Landscape {
      assert z == r;
      assert r > 1.0;
      assert f.width * z >= viewport.width by {
        assert f.width * z == viewport.width * r;
        assert viewport.width * (r - 1.0) > 0.0 by { PositiveProduct(viewport.width, r - 1.0); }
      }
    } else {
      FlippedAspectRatio(image);
      var q := AspectRatio(Flipped(image));
      assert z == q;
      assert q >= 1.0;
      assert f.height * z >= viewport.height by {
        assert f.height * z == viewport.height * q;
        if q > 1.0 {
          PositiveProduct(viewport.height, q - 1.0);
        }
      }
    }
  }

  /**
   * In a square viewport the asset frame lies inside the viewport, spanning it
   * exactly on one axis and centred on the other.
   */
  lemma AssetFrameInsideSquareViewport(image: Size, viewport: Size)
    requires image.Positive() && viewport.Positive() && viewport.width == viewport.height
    ensures var fr := AssetFrame(image, viewport);
            fr.size.width <= viewport.width && fr.size.height <= viewport.height
            && 0.0 <= fr.origin.x && fr.origin.x + fr.size.width <= viewport.width
            && 0.0 <= fr.origin.y && fr.origin.y + fr.size.height <= viewport.height
            && (fr.size.width == viewport.width || fr.size.height == viewport.height)
  {
    var f := AssetFrameSize(image, viewport);
    assert OrientationOf(f) == OrientationOf(image);
  }
}
