/** components/ComparisonSlider.tsx: the before/after slider with zoom and
    pan. The scale is kept as a count of half-steps (2 is scale 1, 8 is
    scale 4); positions and percentages are exact reals. */
module ComparisonSlider {
  import opened Types

  const MinScaleSteps := 2
  const MaxScaleSteps := 8

  /** The bounding box of the slider's container, horizontally. */
  datatype Rect = Rect(left: real, width: real)

  function Clamp(lo: real, x: real, hi: real): real
    requires lo <= hi
  {
    if x < lo then lo else if x > hi then hi else x
  }

  /** The slider position for a pointer at `clientX`: the pointer's offset
      in the box, clamped to the box, as a percentage of its width. */
  function SliderPercent(box: Rect, clientX: real): (p: real)
    requires box.width > 0.0
    ensures 0.0 <= p <= 100.0
    ensures clientX <= box.left ==> p == 0.0
    ensures clientX >= box.left + box.width ==> p == 100.0
    ensures box.left <= clientX <= box.left + box.width ==> p * box.width == (clientX - box.left) * 100.0
  {
    var x := Clamp(0.0, clientX - box.left, box.width);
    (x / box.width) * 100.0
  }

  /** Further right never moves the slider left. */
  lemma SliderPercentMonotone(box: Rect, a: real, b: real)
    requires box.width > 0.0 && a <= b
    ensures SliderPercent(box, a) <= SliderPercent(box, b)
  {
    var xa := Clamp(0.0, a - box.left, box.width);
    var xb := Clamp(0.0, b - box.left, box.width);
    assert xa <= xb;
    QuotientMonotone(xa, xb, box.width);
  }

  lemma QuotientMonotone(x: real, y: real, w: real)
    requires w > 0.0 && x <= y
    ensures x / w <= y / w
  {
    var q := (y - x) / w;
    assert q * w == y - x;
    assert y / w == x / w + q;
  }

  class Slider {
    var sliderPosition: real
    var isDragging: bool
    var scaleSteps: int
    var positionX: real
    var positionY: real
    var isPanning: bool
    var startPanX: real
    var startPanY: real

    ghost predicate Valid()
      reads this
    {
      && 0.0 <= sliderPosition <= 100.0
      && MinScaleSteps <= scaleSteps <= MaxScaleSteps
    }

    /** Slider in the middle, scale 1, no offset, nothing held. */
    constructor ()
      ensures Valid()
      ensures sliderPosition == 50.0 && !isDragging && scaleSteps == MinScaleSteps
      ensures positionX == 0.0 && positionY == 0.0 && !isPanning
      ensures startPanX == 0.0 && startPanY == 0.0
    {
      sliderPosition, isDragging, scaleSteps := 50.0, false, MinScaleSteps;
      positionX, positionY, isPanning := 0.0, 0.0, false;
      startPanX, startPanY := 0.0, 0.0;
    }

    /** The zoom factor the images are drawn at. */
    function Scale(): (s: real)
      reads this
      requires Valid()
      ensures 1.0 <= s <= 4.0
    {
      scaleSteps as real / 2.0
    }

    /** How much of the before image is clipped away on the right, in percent. */
    function ClipRight(): (c: real)
      reads this
      requires Valid()
      ensures 0.0 <= c <= 100.0 && c + sliderPosition == 100.0
    {
      100.0 - sliderPosition
    }

    /** The ORIGINAL / AI GENERATED labels show only at scale 1. */
    function LabelsVisible(): (b: bool)
      reads this
      requires Valid()
      ensures b <==> Scale() == 1.0
    {
      scaleSteps == MinScaleSteps
    }

    /** `handleSliderMove`: follow the pointer when the container is mounted. */
    method HandleSliderMove(container: Option<Rect>, clientX: real)
      requires Valid() && (container.Some? ==> container.value.width > 0.0)
      modifies this
      ensures Valid()
      ensures container.None? ==> sliderPosition == old(sliderPosition)
      ensures container.Some? ==> sliderPosition == SliderPercent(container.value, clientX)
      ensures isDragging == old(isDragging) && scaleSteps == old(scaleSteps) && isPanning == old(isPanning)
      ensures positionX == old(positionX) && positionY == old(positionY)
      ensures startPanX == old(startPanX) && startPanY == old(startPanY)
    {
      if container.Some? {
        sliderPosition := SliderPercent(container.value, clientX);
      }
    }

    /** Pressing the slider handle starts a drag; releasing anywhere ends it. */
    method SetDragging(dragging: bool)
      requires Valid()
      modifies this
      ensures Valid() && isDragging == dragging
      ensures sliderPosition == old(sliderPosition) && scaleSteps == old(scaleSteps) && isPanning == old(isPanning)
      ensures positionX == old(positionX) && positionY == old(positionY)
      ensures startPanX == old(startPanX) && startPanY == old(startPanY)
    {
      isDragging := dragging;
    }

    /** A pointer move anywhere on the page moves the slider only while dragging. */
    method PointerMove(container: Option<Rect>, clientX: real)
      requires Valid() && (container.Some? ==> container.value.width > 0.0)
      modifies this
      ensures Valid()
      ensures isDragging && container.Some? ==> sliderPosition == SliderPercent(container.value, clientX)
      ensures !isDragging ==> sliderPosition == old(sliderPosition)
      ensures isDragging == old(isDragging) && scaleSteps == old(scaleSteps) && isPanning == old(isPanning)
      ensures positionX == old(positionX) && positionY == old(positionY)
      ensures startPanX == old(startPanX) && startPanY == old(startPanY)
    {
      if isDragging {
        HandleSliderMove(container, clientX);
      }
    }

    /** `handleZoomIn`: half a step more, at most 4. */
    method ZoomIn()
      requires Valid()
      modifies this
      ensures Valid()
      ensures scaleSteps == if old(scaleSteps) < MaxScaleSteps then old(scaleSteps) + 1 else MaxScaleSteps
      ensures sliderPosition == old(sliderPosition) && isPanning == old(isPanning) && isDragging == old(isDragging)
      ensures positionX == old(positionX) && positionY == old(positionY)
      ensures startPanX == old(startPanX) && startPanY == old(startPanY)
    {
      scaleSteps := if scaleSteps + 1 < MaxScaleSteps then scaleSteps + 1 else MaxScaleSteps;
    }

    /** `handleZoomOut`: half a step less, at least 1; back at 1 the view
        is re-centred. */
    method ZoomOut()
      requires Valid()
      modifies this
      ensures Valid()
      ensures scaleSteps == if old(scaleSteps) > MinScaleSteps then old(scaleSteps) - 1 else MinScaleSteps
      ensures scaleSteps == MinScaleSteps ==> positionX == 0.0 && positionY == 0.0
      ensures scaleSteps > MinScaleSteps ==> positionX == old(positionX) && positionY == old(positionY)
      ensures sliderPosition == old(sliderPosition) && isPanning == old(isPanning) && isDragging == old(isDragging)
      ensures startPanX == old(startPanX) && startPanY == old(startPanY)
    {
      var newSteps := if scaleSteps - 1 > MinScaleSteps then scaleSteps - 1 else MinScaleSteps;
      if newSteps == MinScaleSteps {
        positionX, positionY := 0.0, 0.0;
      }
      scaleSteps := newSteps;
    }

    /** `handleReset`: scale 1, centred. */
    method Reset()
      requires Valid()
      modifies this
      ensures Valid()
      ensures scaleSteps == MinScaleSteps && positionX == 0.0 && positionY == 0.0
      ensures sliderPosition == old(sliderPosition) && isPanning == old(isPanning) && isDragging == old(isDragging)
      ensures startPanX == old(startPanX) && startPanY == old(startPanY)
    {
      scaleSteps := MinScaleSteps;
      positionX, positionY := 0.0, 0.0;
    }

    /** `handlePanStart`: when zoomed in, remember where the pointer is
        relative to the current offset. */
    method PanStart(clientX: real, clientY: real)
      requires Valid()
      modifies this
      ensures Valid()
      ensures scaleSteps > MinScaleSteps ==> isPanning && startPanX == clientX - positionX && startPanY == clientY - positionY
      ensures scaleSteps == MinScaleSteps ==>
                isPanning == old(isPanning) && startPanX == old(startPanX) && startPanY == old(startPanY)
      ensures positionX == old(positionX) && positionY == old(positionY)
      ensures scaleSteps == old(scaleSteps) && sliderPosition == old(sliderPosition) && isDragging == old(isDragging)
    {
      if scaleSteps > MinScaleSteps {
        isPanning := true;
        startPanX, startPanY := clientX - positionX, clientY - positionY;
      }
    }

    /** `handlePanMove`: move the view with the pointer, only while panning
        and zoomed in. */
    method PanMove(clientX: real, clientY: real)
      requires Valid()
      modifies this
      ensures Valid()
      ensures isPanning && scaleSteps > MinScaleSteps ==> positionX == clientX - startPanX && positionY == clientY - startPanY
      ensures !(isPanning && scaleSteps > MinScaleSteps) ==> positionX == old(positionX) && positionY == old(positionY)
      ensures isPanning == old(isPanning) && startPanX == old(startPanX) && startPanY == old(startPanY)
      ensures scaleSteps == old(scaleSteps) && sliderPosition == old(sliderPosition) && isDragging == old(isDragging)
    {
      if isPanning && scaleSteps > MinScaleSteps {
        positionX, positionY := clientX - startPanX, clientY - startPanY;
      }
    }

    /** `handlePanEnd`. */
    method PanEnd()
      requires Valid()
      modifies this
      ensures Valid() && !isPanning
      ensures positionX == old(positionX) && positionY == old(positionY)
      ensures scaleSteps == old(scaleSteps) && sliderPosition == old(sliderPosition) && isDragging == old(isDragging)
      ensures startPanX == old(startPanX) && startPanY == old(startPanY)
    {
      isPanning := false;
    }

    /** A press at one point followed by a move to another shifts the view
        by the pointer's displacement when zoomed in, and not at all at scale 1. */
    method PanGesture(fromX: real, fromY: real, toX: real, toY: real)
      requires Valid()
      modifies this
      ensures Valid()
      ensures old(scaleSteps) > MinScaleSteps ==>
                positionX == old(positionX) + (toX - fromX) && positionY == old(positionY) + (toY - fromY)
      ensures old(scaleSteps) == MinScaleSteps ==>
                positionX == old(positionX) && positionY == old(positionY)
      ensures old(scaleSteps) > MinScaleSteps ==>
                isPanning && startPanX == fromX - old(positionX) && startPanY == fromY - old(positionY)
      ensures old(scaleSteps) == MinScaleSteps ==>
                isPanning == old(isPanning) && startPanX == old(startPanX) && startPanY == old(startPanY)
      ensures scaleSteps == old(scaleSteps) && sliderPosition == old(sliderPosition) && isDragging == old(isDragging)
    {
      PanStart(fromX, fromY);
      PanMove(toX, toY);
    }
  }
}
