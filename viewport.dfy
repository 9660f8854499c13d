/** Zoom percentage and fullscreen target of the before/after image views. */
module Viewport {
  import opened Wrappers

  const MinZoom: int := 50
  const MaxZoom: int := 200
  const DefaultZoom: int := 100
  /** Zoom buttons move by 10; the slider itself moves by 5. */
  const ZoomStep: int := 10

  predicate InZoomRange(z: int) { MinZoom <= z <= MaxZoom }

  /** The zoom-out button: `Math.max(50, zoomLevel - 10)`. */
  function ZoomedOut(z: int): (r: int)
    ensures r >= MinZoom
    ensures r == z - ZoomStep || r == MinZoom
    ensures InZoomRange(z) ==> InZoomRange(r) && r <= z
    ensures z - ZoomStep >= MinZoom ==> r == z - ZoomStep
  {
    Max(MinZoom, z - ZoomStep)
  }

  /** The zoom-in button: `Math.min(200, zoomLevel + 10)`. */
  function ZoomedIn(z: int): (r: int)
    ensures r <= MaxZoom
    ensures r == z + ZoomStep || r == MaxZoom
    ensures InZoomRange(z) ==> InZoomRange(r) && r >= z
    ensures z + ZoomStep <= MaxZoom ==> r == z + ZoomStep
  {
    Min(MaxZoom, z + ZoomStep)
  }

  /** `n` presses of zoom-out. */
  function ZoomedOutTimes(z: int, n: nat): int
  {
    if n == 0 then z else ZoomedOut(ZoomedOutTimes(z, n - 1))
  }

  /** `n` presses of zoom-in. */
  function ZoomedInTimes(z: int, n: nat): int
  {
    if n == 0 then z else ZoomedIn(ZoomedInTimes(z, n - 1))
  }

  /** However often zoom-out is pressed, the result is the clamped difference: it never goes below 50. */
  lemma {:induction false} ZoomOutRepeatedClamps(z: int, n: nat)
    requires n > 0
    ensures ZoomedOutTimes(z, n) == Max(MinZoom, z - ZoomStep * n)
  {
    if n > 1 {
      ZoomOutRepeatedClamps(z, n - 1);
    }
  }

  /** However often zoom-in is pressed, the result is the clamped sum: it never goes above 200. */
  lemma {:induction false} ZoomInRepeatedClamps(z: int, n: nat)
    requires n > 0
    ensures ZoomedInTimes(z, n) == Min(MaxZoom, z + ZoomStep * n)
  {
    if n > 1 {
      ZoomInRepeatedClamps(z, n - 1);
    }
  }

  /**
   * `setFullscreenImage(fullscreenImage === image ? null : image)`: requesting
   * the image already shown closes fullscreen, any other image replaces it.
   */
  function ToggledFullscreen(current: Option<string>, image: string): (r: Option<string>)
    ensures r.None? <==> current == Some(image)
    ensures r.Some? ==> r.value == image
  {
    if current == Some(image) then None else Some(image)
  }

  /** Toggling the same image twice from "no fullscreen" comes back to no fullscreen. */
  lemma ToggleTwiceCloses(image: string)
    ensures ToggledFullscreen(ToggledFullscreen(None, image), image) == None
  {
  }

  /**
   * From any state in which `image` itself is not shown (nothing, or another
   * image), one toggle shows `image` and a second closes fullscreen; the
   * other image is not brought back.
   */
  lemma ToggleShowsThenCloses(current: Option<string>, image: string)
    requires current != Some(image)
    ensures ToggledFullscreen(current, image) == Some(image)
    ensures ToggledFullscreen(ToggledFullscreen(current, image), image) == None
  {
  }
}
