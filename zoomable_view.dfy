/**
 * YPAssetZoomableView: the scroll view that shows a photo or a video preview for
 * cropping. The photo image view and the video view are represented by their
 * frames and the image each shows; which of the two is in the view tree is the
 * `attached` surface. Calls the view makes into code outside this file (the
 * scroll view's zoom and offset setters, the media fetches, the video view, the
 * completion and delegate callbacks) are recorded, in order, in `events`.
 */
module ZoomableView {
  import opened Optional
  import opened Sizes
  import opened Geometry

  /** The identity of a PHAsset. */
  type AssetId = nat

  /** Which asset view is a subview of the scroll view. */
  datatype Surface = NoSurface | PhotoSurface | VideoSurface

  /** The view UIKit passes to `scrollViewDidEndZooming`. */
  datatype ZoomedView = PhotoView | VideoView | OtherView

  /** The two optional fields of a YPLibrarySelection this view reads. */
  datatype StoredCropPosition = StoredCropPosition(zoomScale: Option<real>, contentOffset: Option<Point>)

  /** An observable call from the view to a collaborator. */
  datatype Event =
    | ZoomScaleSet(scale: real, animated: bool)   // the scroll view's zoom setter
    | ContentOffsetSet(offset: Point)              // setContentOffset(_:animated: false)
    | Completion                                   // the caller's completion closure
    | CropAreaDidChange                            // the cropAreaDidChange closure
    | PhotoFetchRequested(asset: AssetId)          // fetch(photo:)
    | PreviewFetchRequested(asset: AssetId)        // fetchPreviewFor(video:)
    | PlayerItemFetchRequested(asset: AssetId)     // fetchPlayerItem(for:)
    | VideoReleased                                // video view removed, play image hidden, deallocated
    | VideoStarted(asset: AssetId)                 // loadVideo(_:) then play()
    | LayoutNotified                               // ypAssetZoomableViewDidLayoutSubviews
    | DidZoomNotified                              // ypAssetZoomableViewScrollViewDidZoom
    | DidEndZoomingNotified                        // ypAssetZoomableViewScrollViewDidEndZooming

  /** The events `applyStoredCropPosition` produces: the zoom first, then the offset. */
  function CropPositionEvents(scp: StoredCropPosition): (es: seq<Event>)
    ensures |es| == (if scp.zoomScale.Some? then 1 else 0) + (if scp.contentOffset.Some? then 1 else 0)
    ensures scp.zoomScale.Some? ==> es[0] == ZoomScaleSet(scp.zoomScale.value, false)
    ensures scp.contentOffset.Some? ==> es[|es| - 1] == ContentOffsetSet(scp.contentOffset.value)
  {
    (if scp.zoomScale.Some? then [ZoomScaleSet(scp.zoomScale.value, false)] else [])
    + (if scp.contentOffset.Some? then [ContentOffsetSet(scp.contentOffset.value)] else [])
  }

  /**
   * The number of `cropAreaDidChange` calls recorded in a trace: none exactly
   * when the trace holds no such call, and never more than its length.
   */
  function CropChanges(es: seq<Event>): (n: nat)
    ensures n <= |es|
    ensures n == 0 <==> CropAreaDidChange !in es
  {
    if es == [] then 0
    else
      var init, last := es[..|es| - 1], es[|es| - 1];
      assert es == init + [last];
      CropChanges(init) + (if last == CropAreaDidChange then 1 else 0)
  }

  /** Counting the crop-area reports of a trace splits over concatenation. */
  lemma {:induction false} CropChangesAppend(a: seq<Event>, b: seq<Event>)
    ensures CropChanges(a + b) == CropChanges(a) + CropChanges(b)
    decreases |b|
  {
    if b == [] {
      assert a + b == a;
    } else {
      var init, last := b[..|b| - 1], b[|b| - 1];
      assert a + b == (a + init) + [last];
      assert (a + b)[..|a + b| - 1] == a + init;
      CropChangesAppend(a, init);
    }
  }

  /**
   * Each of the two traces `scrollViewDidEndZooming` can append to `before`
   * (with or without the snap-back zoom) reports the crop area changed exactly once.
   */
  lemma ZoomEndReportsOnce(before: seq<Event>, zoom: real)
    ensures CropChanges(before + [DidEndZoomingNotified, CropAreaDidChange]) == CropChanges(before) + 1
    ensures CropChanges(before + [ZoomScaleSet(zoom, true), DidEndZoomingNotified, CropAreaDidChange])
            == CropChanges(before) + 1
  {
    var tail := [DidEndZoomingNotified, CropAreaDidChange];
    CropChangesAppend(before, tail);
    CropChangesAppend(before, [ZoomScaleSet(zoom, true)] + tail);
    assert [ZoomScaleSet(zoom, true)] + tail == [ZoomScaleSet(zoom, true), DidEndZoomingNotified, CropAreaDidChange];
  }

  /** The events of an optional stored crop position. */
  function StoredEvents(scp: Option<StoredCropPosition>): seq<Event> {
    match scp
    case None => []
    case Some(p) => CropPositionEvents(p)
  }

  /** The zoom after an optional stored crop position is applied to zoom `z`. */
  function StoredZoom(scp: Option<StoredCropPosition>, z: real): real {
    match scp
    case None => z
    case Some(p) => p.zoomScale.GetOr(z)
  }

  /** The content offset after an optional stored crop position is applied to offset `o`. */
  function StoredOffset(scp: Option<StoredCropPosition>, o: Point): Point {
    match scp
    case None => o
    case Some(p) => p.contentOffset.GetOr(o)
  }

  class AssetZoomableView {
    /** The scroll view's bounds size, set by layout. */
    var bounds: Size
    var isVideoMode: bool
    var attached: Surface
    var photoFrame: Rect
    var videoFrame: Rect
    /** The photo image view's image (only its size matters here). */
    var photoImage: Option<Size>
    /** The video view's preview image. */
    var videoPreview: Option<Size>
    var zoomScale: real
    var minimumZoomScale: real
    var aspectZoomScale: real
    var contentOffset: Point
    var currentAsset: Option<AssetId>
    var events: seq<Event>
    /** `minWidthForItem` of the library configuration, a public property callers may reassign. */
    var minWidth: Option<real>
    /** `onlySquare` of the library configuration, fixed for the view's lifetime. */
    const onlySquare: bool
    const maximumZoomScale: real

    /** Positive bounds, loaded images of positive size, and video mode exactly when the video view is attached. */
    ghost predicate Valid()
      reads this
    {
      bounds.Positive()
      && (isVideoMode <==> attached == VideoSurface)
      && (photoImage.Some? ==> photoImage.value.Positive())
      && (videoPreview.Some? ==> videoPreview.value.Positive())
    }

    /**
     * `assetImageView.image`, chosen by video mode: the image shown is the
     * preview exactly when the video view is the attached one, otherwise the
     * photo image view's image; it has a positive size when present.
     */
    function ActiveImage(): (img: Option<Size>)
      requires Valid()
      reads this
      ensures attached == VideoSurface ==> img == videoPreview
      ensures attached != VideoSurface ==> img == photoImage
      ensures img.Some? ==> img.value.Positive()
    {
      if isVideoMode then videoPreview else photoImage
    }

    /** The frame of the active view (the video view in video mode, else the photo image view). */
    function ActiveFrame(): Rect
      reads this
    {
      if isVideoMode then videoFrame else photoFrame
    }

    /**
     * `init(coder:)` followed by the first layout pass, which gives the view its
     * positive bounds: both asset views have a zero frame and neither is a
     * subview, the zoom range is [1, 6], nothing is loaded.
     */
    constructor (bounds: Size, minWidth: Option<real>, onlySquare: bool)
      requires bounds.Positive()
      ensures Valid()
      ensures this.bounds == bounds && this.minWidth == minWidth && this.onlySquare == onlySquare
      ensures !isVideoMode && attached == NoSurface && currentAsset == None
      ensures photoImage == None && videoPreview == None
      ensures photoFrame == videoFrame == Rect(Point(0.0, 0.0), Size(0.0, 0.0))
      ensures zoomScale == minimumZoomScale == aspectZoomScale == 1.0 && maximumZoomScale == 6.0
      ensures contentOffset == Point(0.0, 0.0) && events == []
    {
      this.bounds := bounds;
      this.minWidth := minWidth;
      this.onlySquare := onlySquare;
      isVideoMode := false;
      attached := NoSurface;
      photoFrame := Rect(Point(0.0, 0.0), Size(0.0, 0.0));
      videoFrame := Rect(Point(0.0, 0.0), Size(0.0, 0.0));
      photoImage := None;
      videoPreview := None;
      maximumZoomScale := 6.0;
      minimumZoomScale := 1.0;
      zoomScale := 1.0;
      aspectZoomScale := 1.0;
      contentOffset := Point(0.0, 0.0);
      currentAsset := None;
      events := [];
    }

    /** The scroll view's zoom setter, `setZoomScale(_:animated:)` or `zoomScale =`. */
    method SetZoomScale(scale: real, animated: bool)
      modifies this`zoomScale, this`events
      ensures zoomScale == scale
      ensures events == old(events) + [ZoomScaleSet(scale, animated)]
    {
      zoomScale := scale;
      events := events + [ZoomScaleSet(scale, animated)];
    }

    /** An assignment to the public `minWidth` property. */
    method SetMinWidth(m: Option<real>)
      modifies this`minWidth
      ensures minWidth == m
    {
      minWidth := m;
    }

    /**
     * `fitImage`: recomputes the fill zoom of the active image, then zooms to it
     * when `fit` holds and to 1 otherwise.
     */
    method FitImage(fit: bool, animated: bool)
      requires Valid()
      modifies this`aspectZoomScale, this`zoomScale, this`events
      ensures Valid()
      ensures aspectZoomScale == CalculateZoomScale(ActiveImage(), bounds)
      ensures zoomScale == if fit then aspectZoomScale else 1.0
      ensures events == old(events) + [ZoomScaleSet(zoomScale, animated)]
    {
      aspectZoomScale := CalculateZoomScale(ActiveImage(), bounds);
      if fit {
        SetZoomScale(aspectZoomScale, animated);
      } else {
        SetZoomScale(1.0, animated);
      }
    }

    /**
     * `applyStoredCropPosition`: the stored zoom, if any, is set before the stored
     * offset, if any; an absent field leaves its state as it was.
     */
    method ApplyStoredCropPosition(scp: StoredCropPosition)
      modifies this`zoomScale, this`contentOffset, this`events
      ensures zoomScale == scp.zoomScale.GetOr(old(zoomScale))
      ensures contentOffset == scp.contentOffset.GetOr(old(contentOffset))
      ensures events == old(events) + CropPositionEvents(scp)
    {
      if scp.zoomScale.Some? {
        SetZoomScale(scp.zoomScale.value, false);
      }
      if scp.contentOffset.Some? {
        contentOffset := scp.contentOffset.value;
        events := events + [ContentOffsetSet(scp.contentOffset.value)];
      }
    }

    /** `centerAssetView`: moves the active view's frame to its centred origin. */
    method CenterAssetView()
      modifies this`photoFrame, this`videoFrame
      ensures ActiveFrame() == CenterFrame(old(ActiveFrame()), bounds)
      ensures isVideoMode ==> photoFrame == old(photoFrame)
      ensures !isVideoMode ==> videoFrame == old(videoFrame)
    {
      var assetFrame := if isVideoMode then videoFrame else photoFrame;
      var assetSize := assetFrame.size;
      var x := if assetSize.width < bounds.width then (bounds.width - assetSize.width) / 2.0 else 0.0;
      var y := if assetSize.height < bounds.height then (bounds.height - assetSize.height) / 2.0 else 0.0;
      assetFrame := assetFrame.(origin := Point(x, y));
      if isVideoMode {
        videoFrame := assetFrame;
      } else {
        photoFrame := assetFrame;
      }
    }

    /**
     * `setAssetFrame(for:with:)` on the active view: resets the zoom to 1, sizes
     * and centres the frame for `image`, then sets the minimum zoom and the zoom
     * to MinimumZoom.
     */
    method SetAssetFrame(image: Size)
      requires Valid() && image.Positive()
      modifies this`minimumZoomScale, this`zoomScale, this`photoFrame, this`videoFrame, this`events
      ensures ActiveFrame() == AssetFrame(image, bounds)
      ensures isVideoMode ==> photoFrame == old(photoFrame)
      ensures !isVideoMode ==> videoFrame == old(videoFrame)
      ensures minimumZoomScale == zoomScale == MinimumZoom(image, bounds, minWidth)
      ensures events == old(events) + [ZoomScaleSet(1.0, false), ZoomScaleSet(zoomScale, false)]
    {
      minimumZoomScale := 1.0;
      SetZoomScale(1.0, false);

      var viewSize := bounds;
      var w := image.width;
      var h := image.height;
      var zoom := 1.0;
      var frameSize: Size;
      match OrientationOf(image) {
        case Landscape =>
          frameSize := Size(viewSize.width, viewSize.width / AspectRatio(image));
        case _ =>
          frameSize := Size(viewSize.height * AspectRatio(image), viewSize.height);
          if minWidth.Some? {
            var k := minWidth.value / viewSize.width;
            zoom := (h / w) * k;
          }
      }
      assert frameSize == AssetFrameSize(image, bounds);
      assert zoom == MinimumZoom(image, bounds, minWidth);
      if isVideoMode {
        videoFrame := videoFrame.(size := frameSize);
      } else {
        photoFrame := photoFrame.(size := frameSize);
      }
      CenterAssetView();

      minimumZoomScale := zoom;
      SetZoomScale(zoom, false);
    }

    /**
     * The tail both fetch callbacks share: frame the active view for `image`,
     * call the completion, then apply the stored crop position, if any.
     */
    method FrameAndComplete(image: Size, scp: Option<StoredCropPosition>)
      requires Valid() && image.Positive()
      modifies this`minimumZoomScale, this`zoomScale, this`photoFrame, this`videoFrame
      modifies this`contentOffset, this`events
      ensures ActiveFrame() == AssetFrame(image, bounds)
      ensures isVideoMode ==> photoFrame == old(photoFrame)
      ensures !isVideoMode ==> videoFrame == old(videoFrame)
      ensures minimumZoomScale == MinimumZoom(image, bounds, minWidth)
      ensures zoomScale == StoredZoom(scp, minimumZoomScale)
      ensures contentOffset == StoredOffset(scp, old(contentOffset))
      ensures events == old(events)
                        + [ZoomScaleSet(1.0, false), ZoomScaleSet(minimumZoomScale, false), Completion]
                        + StoredEvents(scp)
    {
      SetAssetFrame(image);
      events := events + [Completion];
      if scp.Some? {
        ApplyStoredCropPosition(scp.value);
      }
    }

    /**
     * `setImage`: with the asset already current, only completes; otherwise
     * records the asset as current before asking for its image.
     */
    method SetImage(photo: AssetId)
      modifies this`currentAsset, this`events
      ensures old(currentAsset) == Some(photo) ==>
                currentAsset == old(currentAsset) && events == old(events) + [Completion]
      ensures old(currentAsset) != Some(photo) ==>
                currentAsset == Some(photo) && events == old(events) + [PhotoFetchRequested(photo)]
    {
      if currentAsset == Some(photo) {
        events := events + [Completion];
        return;
      }
      currentAsset := Some(photo);
      events := events + [PhotoFetchRequested(photo)];
    }

    /**
     * The image callback of `setImage`: attaches the photo image view (releasing
     * the video view) when it is not attached, shows the image, frames it,
     * completes, then applies the stored crop position.
     */
    method PhotoFetched(image: Size, scp: Option<StoredCropPosition>)
      requires Valid() && image.Positive()
      modifies this`isVideoMode, this`attached, this`photoImage, this`photoFrame, this`videoFrame
      modifies this`minimumZoomScale, this`zoomScale, this`contentOffset, this`events
      ensures Valid()
      ensures !isVideoMode && attached == PhotoSurface && photoImage == Some(image)
      ensures photoFrame == AssetFrame(image, bounds) && videoFrame == old(videoFrame)
      ensures minimumZoomScale == MinimumZoom(image, bounds, minWidth)
      ensures zoomScale == StoredZoom(scp, minimumZoomScale)
      ensures contentOffset == StoredOffset(scp, old(contentOffset))
      ensures events == old(events)
                        + (if old(attached) != PhotoSurface then [VideoReleased] else [])
                        + [ZoomScaleSet(1.0, false), ZoomScaleSet(minimumZoomScale, false), Completion]
                        + StoredEvents(scp)
    {
      if attached != PhotoSurface {
        isVideoMode := false;
        attached := PhotoSurface;
        events := events + [VideoReleased];
      }
      photoImage := Some(image);
      FrameAndComplete(image, scp);
    }

    /** `setVideo`: asks for the preview and the player item; nothing else happens until they arrive. */
    method SetVideo(video: AssetId)
      modifies this`events
      ensures events == old(events) + [PreviewFetchRequested(video), PlayerItemFetchRequested(video)]
    {
      events := events + [PreviewFetchRequested(video), PlayerItemFetchRequested(video)];
    }

    /**
     * The preview callback of `setVideo`: with the video already current it only
     * completes; otherwise it attaches the video view when it is not attached,
     * shows the preview, frames it, completes, then applies the stored crop
     * position. It never assigns the current asset.
     */
    method VideoPreviewFetched(video: AssetId, preview: Size, scp: Option<StoredCropPosition>)
      requires Valid() && preview.Positive()
      modifies this`isVideoMode, this`attached, this`videoPreview, this`photoFrame, this`videoFrame
      modifies this`minimumZoomScale, this`zoomScale, this`contentOffset, this`events
      ensures Valid()
      ensures currentAsset == Some(video) ==>
                isVideoMode == old(isVideoMode) && attached == old(attached)
                && videoPreview == old(videoPreview) && photoFrame == old(photoFrame)
                && videoFrame == old(videoFrame) && minimumZoomScale == old(minimumZoomScale)
                && zoomScale == old(zoomScale) && contentOffset == old(contentOffset)
                && events == old(events) + [Completion]
      ensures currentAsset != Some(video) ==>
                isVideoMode && attached == VideoSurface && videoPreview == Some(preview)
                && videoFrame == AssetFrame(preview, bounds) && photoFrame == old(photoFrame)
                && minimumZoomScale == MinimumZoom(preview, bounds, minWidth)
                && zoomScale == StoredZoom(scp, minimumZoomScale)
                && contentOffset == StoredOffset(scp, old(contentOffset))
                && events == old(events)
                             + [ZoomScaleSet(1.0, false), ZoomScaleSet(minimumZoomScale, false), Completion]
                             + StoredEvents(scp)
    {
      if currentAsset == Some(video) {
        events := events + [Completion];
        return;
      }
      if attached != VideoSurface {
        isVideoMode := true;
        attached := VideoSurface;
      }
      videoPreview := Some(preview);
      FrameAndComplete(preview, scp);
    }

    /**
     * The player-item callback of `setVideo`: with the video already current it
     * only completes; otherwise it makes the video current and starts playing it.
     */
    method PlayerItemFetched(video: AssetId)
      modifies this`currentAsset, this`events
      ensures old(currentAsset) == Some(video) ==>
                currentAsset == old(currentAsset) && events == old(events) + [Completion]
      ensures old(currentAsset) != Some(video) ==>
                currentAsset == Some(video) && events == old(events) + [VideoStarted(video)]
    {
      if currentAsset == Some(video) {
        events := events + [Completion];
        return;
      }
      currentAsset := Some(video);
      events := events + [VideoStarted(video)];
    }

    /** `viewForZooming(in:)`: the active view. */
    method ViewForZooming() returns (v: ZoomedView)
      ensures v != OtherView
      ensures v == VideoView <==> isVideoMode
    {
      v := if isVideoMode then VideoView else PhotoView;
    }

    /** `layoutSubviews`, after layout has given the view new bounds: notifies the delegate. */
    method LayoutSubviews(newBounds: Size)
      requires Valid() && newBounds.Positive()
      modifies this`bounds, this`events
      ensures Valid() && bounds == newBounds
      ensures events == old(events) + [LayoutNotified]
    {
      bounds := newBounds;
      events := events + [LayoutNotified];
    }

    /** `scrollViewDidZoom`: notifies the delegate, then re-centres the active view. */
    method ScrollViewDidZoom()
      modifies this`photoFrame, this`videoFrame, this`events
      ensures ActiveFrame() == CenterFrame(old(ActiveFrame()), bounds)
      ensures isVideoMode ==> photoFrame == old(photoFrame)
      ensures !isVideoMode ==> videoFrame == old(videoFrame)
      ensures events == old(events) + [DidZoomNotified]
    {
      events := events + [DidZoomNotified];
      CenterAssetView();
    }

    /**
     * A pinch, as UIKit performs it on the scroll view: the zoom becomes `scale`,
     * then UIKit calls `scrollViewDidZoom`.
     */
    method PinchZoomed(scale: real)
      modifies this`zoomScale, this`photoFrame, this`videoFrame, this`events
      ensures zoomScale == scale
      ensures ActiveFrame() == CenterFrame(old(ActiveFrame()), bounds)
      ensures isVideoMode ==> photoFrame == old(photoFrame)
      ensures !isVideoMode ==> videoFrame == old(videoFrame)
      ensures events == old(events) + [DidZoomNotified]
    {
      zoomScale := scale;
      ScrollViewDidZoom();
    }

    /** A pan, as UIKit performs it on the scroll view: the content offset becomes `offset`. */
    method Panned(offset: Point)
      modifies this`contentOffset
      ensures contentOffset == offset
    {
      contentOffset := offset;
    }

    /**
     * `scrollViewDidEndZooming`: ignored unless the zoomed view is one of the two
     * asset views. UIKit passes the zoom the gesture ended at, which is the scroll
     * view's current zoom. In square-only mode a scale below the fill zoom snaps
     * back to the (recomputed) fill zoom; otherwise the zoom stays at `scale`.
     * Then the delegate is notified and the crop area reported changed, exactly once.
     */
    method ScrollViewDidEndZooming(view: Option<ZoomedView>, scale: real)
      requires Valid() && scale == zoomScale
      modifies this`aspectZoomScale, this`zoomScale, this`events
      ensures Valid()
      ensures view != Some(PhotoView) && view != Some(VideoView) ==>
                aspectZoomScale == old(aspectZoomScale) && zoomScale == old(zoomScale)
                && events == old(events)
      ensures (view == Some(PhotoView) || view == Some(VideoView)) && onlySquare && scale < old(aspectZoomScale) ==>
                aspectZoomScale == CalculateZoomScale(ActiveImage(), bounds) && zoomScale == aspectZoomScale
                && events == old(events) + [ZoomScaleSet(zoomScale, true), DidEndZoomingNotified, CropAreaDidChange]
      ensures (view == Some(PhotoView) || view == Some(VideoView)) && !(onlySquare && scale < old(aspectZoomScale)) ==>
                aspectZoomScale == old(aspectZoomScale) && zoomScale == scale
                && events == old(events) + [DidEndZoomingNotified, CropAreaDidChange]
    {
      if view != Some(PhotoView) && view != Some(VideoView) {
        return;
      }
      if onlySquare && scale < aspectZoomScale {
        FitImage(true, true);
      }
      events := events + [DidEndZoomingNotified, CropAreaDidChange];
    }

    /** `scrollViewDidEndDragging`: reports the crop area changed. */
    method ScrollViewDidEndDragging(decelerate: bool)
      modifies this`events
      ensures events == old(events) + [CropAreaDidChange]
      ensures CropChanges(events) == CropChanges(old(events)) + 1
    {
      events := events + [CropAreaDidChange];
    }

    /** `scrollViewDidEndDecelerating`: reports the crop area changed. */
    method ScrollViewDidEndDecelerating()
      modifies this`events
      ensures events == old(events) + [CropAreaDidChange]
      ensures CropChanges(events) == CropChanges(old(events)) + 1
    {
      events := events + [CropAreaDidChange];
    }
  }
}
