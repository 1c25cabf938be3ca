/**
 * Call sequences on a freshly laid-out AssetZoomableView, showing what the
 * class's contracts imply when the callbacks arrive in a given order.
 */
module ZoomableViewScenarios {
  import opened Optional
  import opened Sizes
  import opened Geometry
  import opened ZoomableView

  /**
   * Loading the same photo twice: the second `setImage` only completes. There is
   * one fetch, and the frame and zoom of the first load stay as they were.
   */
  method PhotoSelectedTwice(bounds: Size, photo: AssetId, image: Size)
    returns (trace: seq<Event>, frame: Rect, zoom: real)
    requires bounds.Positive() && image.Positive()
    ensures trace == [PhotoFetchRequested(photo), VideoReleased,
                      ZoomScaleSet(1.0, false), ZoomScaleSet(1.0, false), Completion,
                      Completion]
    ensures frame == AssetFrame(image, bounds) && zoom == 1.0
  {
    var v := new AssetZoomableView(bounds, None, false);
    v.SetImage(photo);
    v.PhotoFetched(image, None);
    v.SetImage(photo);
    trace, frame, zoom := v.events, v.photoFrame, v.zoomScale;
  }

  /**
   * `setVideo` when the preview arrives before the player item: the video view
   * is attached and framed for the preview, then the video becomes current and
   * plays.
   */
  method PreviewBeforePlayerItem(bounds: Size, video: AssetId, preview: Size)
    returns (shown: bool, frame: Rect, trace: seq<Event>)
    requires bounds.Positive() && preview.Positive()
    ensures shown && frame == AssetFrame(preview, bounds)
    ensures trace == [PreviewFetchRequested(video), PlayerItemFetchRequested(video),
                      ZoomScaleSet(1.0, false), ZoomScaleSet(1.0, false), Completion,
                      VideoStarted(video)]
  {
    var v := new AssetZoomableView(bounds, None, false);
    v.SetVideo(video);
    v.VideoPreviewFetched(video, preview, None);
    v.PlayerItemFetched(video);
    shown := v.isVideoMode && v.videoPreview == Some(preview);
    frame, trace := v.videoFrame, v.events;
  }

  /**
   * `setVideo` when the player item arrives first: it makes the video current,
   * so the preview callback takes the "already current" exit and only completes.
   * The video plays in a video view that is never attached or framed.
   */
  method PlayerItemBeforePreview(bounds: Size, video: AssetId, preview: Size)
    returns (shown: bool, frame: Rect, trace: seq<Event>)
    requires bounds.Positive() && preview.Positive()
    ensures !shown && frame == Rect(Point(0.0, 0.0), Size(0.0, 0.0))
    ensures trace == [PreviewFetchRequested(video), PlayerItemFetchRequested(video),
                      VideoStarted(video), Completion]
  {
    var v := new AssetZoomableView(bounds, None, false);
    v.SetVideo(video);
    v.PlayerItemFetched(video);
    v.VideoPreviewFetched(video, preview, None);
    shown := v.isVideoMode || v.videoPreview.Some?;
    frame, trace := v.videoFrame, v.events;
  }

  /**
   * Square-only mode: a 3600x3000 photo in a 300x300 viewport has fill zoom 1.2.
   * After the caller fits it, a pinch that ends at 1.0 snaps back to 1.2 and
   * reports the crop area changed once.
   */
  method SquareOnlySnapBack(photo: AssetId) returns (zoom: real, trace: seq<Event>)
    ensures zoom == 1.2
    ensures trace == [PhotoFetchRequested(photo), VideoReleased,
                      ZoomScaleSet(1.0, false), ZoomScaleSet(1.0, false), Completion,
                      ZoomScaleSet(1.2, false), DidZoomNotified,
                      ZoomScaleSet(1.2, true), DidEndZoomingNotified, CropAreaDidChange]
  {
    var bounds, image := Size(300.0, 300.0), Size(3600.0, 3000.0);
    var v := new AssetZoomableView(bounds, None, true);
    v.SetImage(photo);
    v.PhotoFetched(image, None);
    FillZoomOfExample();
    v.FitImage(true, false);
    v.PinchZoomed(1.0);
    v.ScrollViewDidEndZooming(Some(PhotoView), 1.0);
    assert v.ActiveImage() == Some(image);
    zoom, trace := v.zoomScale, v.events;
  }

  /** The fill zoom of a 3600x3000 image in a 300x300 viewport is 1.2. */
  lemma FillZoomOfExample()
    ensures CalculateZoomScale(Some(Size(3600.0, 3000.0)), Size(300.0, 300.0)) == 1.2
  {
  }

  /**
   * A portrait 3000x4000 photo in a 300x300 viewport with a minimum width of 150:
   * the frame is 225x300, centred at x = 37.5, and the minimum and initial zoom
   * is (4000/3000) * (150/300) = 2/3, at which the displayed frame is 150 wide.
   */
  method MinWidthPortrait(photo: AssetId) returns (frame: Rect, minZoom: real, zoom: real)
    ensures frame == Rect(Point(37.5, 0.0), Size(225.0, 300.0))
    ensures minZoom == zoom && zoom * frame.size.width == 150.0
  {
    var bounds, image := Size(300.0, 300.0), Size(3000.0, 4000.0);
    var v := new AssetZoomableView(bounds, Some(150.0), false);
    v.SetImage(photo);
    v.PhotoFetched(image, None);
    frame, minZoom, zoom := v.photoFrame, v.minimumZoomScale, v.zoomScale;
  }
}
