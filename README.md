# YPAssetZoomableView, modelled in Dafny

This project models the zoom, fit and centring logic of `YPAssetZoomableView`, the
UIScrollView subclass of YPImagePicker's gallery. The user pans and zooms a photo
or a video preview inside it to choose a crop. The model has four modules:

- `Sizes` (`sizes.dfy`): the `AspectRatio` extension of CGSize. It covers `aspectRatio()`,
  `orientation`, `flipped()`, `width(for:)`, `height(for:)` and the preset ratios.
  CGFloat is an exact `real`, and every size reasoned about is positive.
- `Geometry` (`geometry.dfy`): the arithmetic under the view, as pure functions.
  These are the frame size and minimum zoom that `setAssetFrame` computes, the fill zoom
  of `calculateZoomScale`, and the origin `centerAssetView` computes.
  Lemmas state what these values mean:
  - at the fill zoom the frame fills the viewport's proportions and covers a square viewport;
  - for a portrait or square image with a minimum width set, the displayed width at the
    minimum zoom is `minWidth` times the viewport's height over its width, so exactly
    `minWidth` in a square viewport (a landscape image, or no minimum width, keeps zoom 1);
  - in a square viewport the asset frame lies inside the viewport.
- `ZoomableView` (`zoomable_view.dfy`): the view itself, as the class `AssetZoomableView`.
  Its fields are the ones the source updates: `isVideoMode`, `zoomScale`, `minimumZoomScale`,
  `aspectZoomScale`, `contentOffset` and `currentAsset`.
  It also holds the frames and images of the photo image view and the video view,
  and which of the two is a subview (`attached`).
  Each method's contract states the method's whole new state in terms of the `Geometry` functions.
  Calls the view makes into code outside this file are appended, in order, to an `events` trace:
  the scroll view's zoom and offset setters, the media fetches, the video view, the completion
  closure, `cropAreaDidChange` and the delegate. The trace makes orders observable, for example
  the zoom-before-offset order of `applyStoredCropPosition` and a single `cropAreaDidChange`
  per zoom end.
  The asynchronous fetch callbacks are separate methods that may be called in any order:
  `PhotoFetched`, `VideoPreviewFetched` and `PlayerItemFetched`.
- `ZoomableViewScenarios` (`scenarios.dfy`): call sequences on a fresh view. They show:
  - reselecting the same photo only completes;
  - the two orders in which `setVideo`'s callbacks can arrive;
  - the square-only snap back to the fill zoom;
  - a portrait asset under a minimum width.

The view's `setVideo` preview callback only reads `currentAsset`; only the player-item
callback assigns it. So when the player item arrives first, the preview callback takes
its "already current" exit and only completes. The video view is then never attached,
given the preview, or framed. `PlayerItemBeforePreview` proves this from the class's
contracts. `PreviewBeforePlayerItem` proves the other order.

Behaviours of the code a reader may not expect:
- The photo callback applies whatever image it is given. It does not compare identities
  again, so a late result for an asset that is no longer current is still shown.
- `scrollViewDidEndZooming` does not re-centre the view itself.
- The square-only check compares the ending scale with the stored `aspectZoomScale`, which
  only `fitImage` updates. It then snaps to the freshly recomputed fill zoom.
- `setVideo` always asks for both the preview and the player item, even for the current asset.

## Model

| member | source | states |
|---|---|---|
| `Sizes.AspectRatio` | Source/Pages/Gallery/YPAssetZoomableView.swift:257-262 | the ratio is positive and is the factor that turns the height into the width |
| `Sizes.OrientationOf` | Source/Pages/Gallery/YPAssetZoomableView.swift:270-279 | landscape exactly when wider than tall, portrait exactly when taller than wide, hence square (the remaining case) exactly when the sides are equal |
| `Sizes.Flipped` | Source/Pages/Gallery/YPAssetZoomableView.swift:281-283 | the flipped size is positive exactly when the size is and has the same area |
| `Sizes.FlippedInvolution` | Source/Pages/Gallery/YPAssetZoomableView.swift:281-283 | flipping twice gives back the original size |
| `Sizes.FlippedAspectRatio` | Source/Pages/Gallery/YPAssetZoomableView.swift:281-283 | the flipped size has the reciprocal aspect ratio; flipping exchanges landscape and portrait and keeps square |
| `Sizes.WidthFor` | Source/Pages/Gallery/YPAssetZoomableView.swift:285-287 | the width returned has the size's proportions at the given height |
| `Sizes.HeightFor` | Source/Pages/Gallery/YPAssetZoomableView.swift:289-291 | the height returned has the size's proportions at the given width |
| `Sizes.PresetRatios` | Source/Pages/Gallery/YPAssetZoomableView.swift:293-297 | `square` is square with ratio 1; `standard`, `wideScreen`, `theater` and `imax` are landscape with ratios 4/3, 16/9, 21/9 and 1.9 |
| `Sizes.HeightForWidthFor` | Source/Pages/Gallery/YPAssetZoomableView.swift:285-291 | `height(for:)` undoes `width(for:)` and `width(for:)` undoes `height(for:)` |
| `Geometry.AssetFrameSize` | Source/Pages/Gallery/YPAssetZoomableView.swift:141-154 | the asset frame is positive, keeps the image's aspect ratio, and spans the viewport's width for a landscape image and its height for a portrait or square one |
| `Geometry.MinimumZoom` | Source/Pages/Gallery/YPAssetZoomableView.swift:139-153 | the minimum zoom is 1 for a landscape image or without `minWidth`; otherwise at that zoom the frame's width times the viewport width equals `minWidth` times the viewport height |
| `Geometry.AspectFillScale` | Source/Pages/Gallery/YPAssetZoomableView.swift:171-177 | the fill zoom of a loaded image is positive |
| `Geometry.CalculateZoomScale` | Source/Pages/Gallery/YPAssetZoomableView.swift:166-178 | with no image on the active view the zoom is 1.0; with one it is positive |
| `Geometry.AspectFillMatchesViewport` | Source/Pages/Gallery/YPAssetZoomableView.swift:166-178 | at the fill zoom the frame matches the viewport on the axis it does not already span: height for landscape, width for portrait or square |
| `Geometry.AspectFillCoversSquareViewport` | Source/Pages/Gallery/YPAssetZoomableView.swift:166-178 | in a square viewport the fill zoom is at least 1 and the frame at that zoom covers the viewport on both axes |
| `Geometry.CenteredOrigin` | Source/Pages/Gallery/YPAssetZoomableView.swift:187-190 | on an axis where the frame is smaller than the bounds, the centres coincide and the frame lies inside; otherwise the origin is 0; the origin is never negative |
| `Geometry.CenterFrameIdempotent` | Source/Pages/Gallery/YPAssetZoomableView.swift:181-193 | centring keeps the size, and centring twice equals centring once |
| `Geometry.AssetFrame` | Source/Pages/Gallery/YPAssetZoomableView.swift:141-158 | the frame has the asset frame size, sits at a non-negative origin and is already centred: centring it again changes nothing |
| `Geometry.AssetFrameInsideSquareViewport` | Source/Pages/Gallery/YPAssetZoomableView.swift:141-158 | in a square viewport the centred asset frame lies inside the viewport and spans it on one axis |
| `ZoomableView.CropPositionEvents` | Source/Pages/Gallery/YPAssetZoomableView.swift:50-58 | one setter call per present field, the zoom first and the offset last |
| `ZoomableView.CropChanges` | Source/Pages/Gallery/YPAssetZoomableView.swift:229-247 | the count of `cropAreaDidChange` calls in a trace is zero exactly when the trace has none, and at most the trace's length |
| `ZoomableView.CropChangesAppend` | Source/Pages/Gallery/YPAssetZoomableView.swift:229-247 | the count of `cropAreaDidChange` calls adds up over concatenated traces |
| `ZoomableView.ZoomEndReportsOnce` | Source/Pages/Gallery/YPAssetZoomableView.swift:229-239 | either trace a zoom end appends (with or without the snap-back zoom) adds exactly one `cropAreaDidChange` call |
| `ZoomableView.AssetZoomableView.constructor` | Source/Pages/Gallery/YPAssetZoomableView.swift:195-209 | zero frames, no subview, zoom range [1, 6], zoom 1, nothing loaded, no video mode |
| `ZoomableView.AssetZoomableView.ActiveImage` | Source/Pages/Gallery/YPAssetZoomableView.swift:31-33 | the image shown is the video preview exactly when the video view is the attached one, otherwise the photo; a present image has a positive size |
| `ZoomableView.AssetZoomableView.SetZoomScale` | Source/Pages/Gallery/YPAssetZoomableView.swift:42-44 | the scroll view's zoom becomes the given scale, and one zoom-setter call with that scale and animation flag is recorded |
| `ZoomableView.AssetZoomableView.SetMinWidth` | Source/Pages/Gallery/YPAssetZoomableView.swift:26 | the public `minWidth` property takes the assigned value |
| `ZoomableView.AssetZoomableView.FitImage` | Source/Pages/Gallery/YPAssetZoomableView.swift:39-46 | `aspectZoomScale` is always recomputed from the active image; the zoom becomes it when fitting and 1 otherwise; one zoom-setter call |
| `ZoomableView.AssetZoomableView.ApplyStoredCropPosition` | Source/Pages/Gallery/YPAssetZoomableView.swift:50-58 | a present zoom and a present offset are applied, the zoom before the offset; an absent field leaves its state unchanged |
| `ZoomableView.AssetZoomableView.CenterAssetView` | Source/Pages/Gallery/YPAssetZoomableView.swift:181-193 | the active view's frame moves to its centred origin with its size kept; the other view's frame is untouched |
| `ZoomableView.AssetZoomableView.SetAssetFrame` | Source/Pages/Gallery/YPAssetZoomableView.swift:129-163 | the active frame becomes the centred asset frame; minimum zoom and zoom both become the minimum zoom, after a reset to 1 |
| `ZoomableView.AssetZoomableView.FrameAndComplete` | Source/Pages/Gallery/YPAssetZoomableView.swift:76-83 | the shared end of both fetch callbacks: the active frame becomes the centred asset frame at the minimum zoom, then completion, then the stored zoom before the stored offset |
| `ZoomableView.AssetZoomableView.SetImage` | Source/Pages/Gallery/YPAssetZoomableView.swift:95-100 | with the asset already current only a completion happens; otherwise the asset becomes current before its image is fetched |
| `ZoomableView.AssetZoomableView.PhotoFetched` | Source/Pages/Gallery/YPAssetZoomableView.swift:102-126 | photo mode with the photo view attached (the video view released if it was not attached); the image is framed; completion precedes the stored crop position; `currentAsset` is not touched |
| `ZoomableView.AssetZoomableView.SetVideo` | Source/Pages/Gallery/YPAssetZoomableView.swift:60-64 | both the preview and the player item are requested, whatever the current asset |
| `ZoomableView.AssetZoomableView.VideoPreviewFetched` | Source/Pages/Gallery/YPAssetZoomableView.swift:64-84 | with the video current only a completion happens; otherwise video mode, the preview is framed, completion precedes the stored crop position; `currentAsset` is never assigned |
| `ZoomableView.AssetZoomableView.PlayerItemFetched` | Source/Pages/Gallery/YPAssetZoomableView.swift:85-92 | with the video current only a completion happens; otherwise the video becomes current and is loaded and played |
| `ZoomableView.AssetZoomableView.ViewForZooming` | Source/Pages/Gallery/YPAssetZoomableView.swift:219-221 | the zoomed view is one of the two asset views, the video view exactly in video mode |
| `ZoomableView.AssetZoomableView.LayoutSubviews` | Source/Pages/Gallery/YPAssetZoomableView.swift:211-214 | the new bounds are kept and the delegate is notified once |
| `ZoomableView.AssetZoomableView.ScrollViewDidZoom` | Source/Pages/Gallery/YPAssetZoomableView.swift:223-227 | the delegate is notified, then the active view is re-centred |
| `ZoomableView.AssetZoomableView.PinchZoomed` | Source/Pages/Gallery/YPAssetZoomableView.swift:223-227 | a pinch sets the zoom to the pinched scale, then `scrollViewDidZoom` notifies the delegate and re-centres the active view |
| `ZoomableView.AssetZoomableView.Panned` | Source/Pages/Gallery/YPAssetZoomableView.swift:241-247 | a pan sets the content offset that the drag and deceleration callbacks then report |
| `ZoomableView.AssetZoomableView.ScrollViewDidEndZooming` | Source/Pages/Gallery/YPAssetZoomableView.swift:229-239 | another view changes nothing; in square-only mode a scale below `aspectZoomScale` snaps to the recomputed fill zoom, otherwise the zoom stays at the scale the gesture ended at; the delegate and `cropAreaDidChange` then fire exactly once each |
| `ZoomableView.AssetZoomableView.ScrollViewDidEndDragging` | Source/Pages/Gallery/YPAssetZoomableView.swift:241-243 | `cropAreaDidChange` fires once, so the trace's count of them grows by exactly one |
| `ZoomableView.AssetZoomableView.ScrollViewDidEndDecelerating` | Source/Pages/Gallery/YPAssetZoomableView.swift:245-247 | `cropAreaDidChange` fires once, so the trace's count of them grows by exactly one |
| `ZoomableViewScenarios.PhotoSelectedTwice` | Source/Pages/Gallery/YPAssetZoomableView.swift:95-126 | selecting the same photo twice fetches once and completes twice; the second selection leaves frame and zoom as the first left them |
| `ZoomableViewScenarios.PreviewBeforePlayerItem` | Source/Pages/Gallery/YPAssetZoomableView.swift:60-93 | preview first: the video view is attached and framed for the preview, then the video plays |
| `ZoomableViewScenarios.PlayerItemBeforePreview` | Source/Pages/Gallery/YPAssetZoomableView.swift:60-93 | player item first: the video plays, but the preview callback only completes, so the video view is never attached or framed |
| `ZoomableViewScenarios.SquareOnlySnapBack` | Source/Pages/Gallery/YPAssetZoomableView.swift:229-239 | a 3600x3000 photo in 300x300, fitted, pinched out to 1.0: the zoom snaps back to 1.2 and the crop area is reported once |
| `ZoomableViewScenarios.MinWidthPortrait` | Source/Pages/Gallery/YPAssetZoomableView.swift:129-163 | a 3000x4000 photo in 300x300 with minimum width 150 gets the frame 225x300 at x = 37.5, and minimum zoom = zoom = 2/3, at which it is 150 wide |

## Left out

- `aspectRatio(precision:)` with a precision: it rounds through `pow` and `Double.rounded`, which are floating point. Only the exact ratio is modelled.
- CGFloat rounding in general: sizes, zooms and offsets are exact reals. Exact equality decides "square", as in the source.
- Zero or negative sizes: every image, preview and bounds size is required to be positive. The zero bounds that `init(coder:)` sets before the first layout pass are not modelled; the constructor starts from the first positive bounds.
- `ZoomableView.AssetZoomableView.PinchZoomed`, `ZoomableView.AssetZoomableView.Panned`: UIKit's gesture handling is reduced to its outcome, a new zoom or offset; neither is clamped, and a pinch does not move the offset.
- `ZoomableView.AssetZoomableView.ScrollViewDidEndZooming` requires the ending scale to be the scroll view's current zoom, which is what UIKit passes.
- `onlySquare` is read from the global library configuration on every zoom end in the source; the model fixes it when the view is created, so a configuration change during the view's life is not modelled.
- `ZoomableView.AssetZoomableView.SetZoomScale` does not clamp the zoom to [`minimumZoomScale`, `maximumZoomScale`] and has no effect on the content offset or on the zoomed view's frame. These are UIScrollView internals. The setter's automatic `scrollViewDidZoom` callback is also not triggered; `ScrollViewDidZoom` is a method of its own that UIKit may call at any time.
- `ZoomableView.AssetZoomableView.SetAssetFrame` leaves out `view.center = center`, because `centerAssetView` overwrites both origin coordinates right after it. It frames the active view; at both call sites that is the `view` argument.
- View-tree manipulation (`addSubview`, `removeFromSuperview`, `isDescendant`, `contentMode`, `clipsToBounds`): represented only by the `attached` surface and the `VideoReleased` event.
- YPVideoView is not part of this model: `loadVideo`, `play`, `showPlayImage` and `deallocate` are events. Whatever `deallocate` does to the video view's own state is not modelled.
- Photos and LibraryMediaManager fetches are events plus callback methods. The callbacks are not tied to a request, and `imageManager` being nil is not modelled. The `[weak self]` guards are left out: the view is always alive.
- `DispatchQueue.main.async` around the completion of an unchanged `setImage`: the completion is recorded immediately.
- The delegate is weak and optional in the source; the model records each notification as if a delegate were set.
- The "No image" diagnostic `print` in `calculateZoomScale`.
- Scroll indicators, bouncing, scrolling enablement and `delegate = self` set by `init(coder:)`; animation, bounce and deceleration physics.
