/** The product image viewer: the current image, the zoom, the 3D rotation
    and dragging. The zoom moves in steps of 0.25 between 0.5 and 3, so the
    scale is kept as a whole number of quarters between 2 and 12. Rotation
    angles are exact reals. */
module ProductViewer {
  import Cyclic

  const MinQuarters: int := 2
  const MaxQuarters: int := 12
  const DefaultQuarters: int := 4

  /** Math.min(scale + 0.25, 3), in quarters. */
  function ZoomIn(q: int): (r: int)
    ensures r <= MaxQuarters
    ensures q < MaxQuarters ==> r == q + 1
    ensures q >= MaxQuarters - 1 ==> r == MaxQuarters
  {
    if q + 1 < MaxQuarters then q + 1 else MaxQuarters
  }

  /** Math.max(scale - 0.25, 0.5), in quarters. */
  function ZoomOut(q: int): (r: int)
    ensures r >= MinQuarters
    ensures q > MinQuarters ==> r == q - 1
    ensures q <= MinQuarters + 1 ==> r == MinQuarters
  {
    if q - 1 > MinQuarters then q - 1 else MinQuarters
  }

  /** Math.max(-30, Math.min(30, x)). */
  function ClampTilt(x: real): (r: real)
    ensures -30.0 <= r <= 30.0
    ensures -30.0 <= x <= 30.0 ==> r == x
    ensures x > 30.0 ==> r == 30.0
    ensures x < -30.0 ==> r == -30.0
  {
    var upper := if 30.0 < x then 30.0 else x;
    if -30.0 > upper then -30.0 else upper
  }

  /** Zoom in then out, or out then in, from strictly inside the range is no change. */
  lemma ZoomRoundTrip(q: int)
    requires MinQuarters < q < MaxQuarters
    ensures ZoomOut(ZoomIn(q)) == q && ZoomIn(ZoomOut(q)) == q
  {
  }

  /** The viewer's state. Each handler's frame names exactly the fields its
      setters write; every other field keeps its value. */
  class Viewer {
    const images: seq<string>
    var currentIndex: nat
    var scaleQuarters: int
    var is3DMode: bool
    var rotationX: real
    var rotationY: real
    var isDragging: bool
    var dragStartX: real
    var dragStartY: real

    /** The scale stays in [0.5, 3], the tilt in [-30, 30], and the index
        names an image whenever there are images. */
    predicate Valid()
      reads this
    {
      && MinQuarters <= scaleQuarters <= MaxQuarters
      && -30.0 <= rotationX <= 30.0
      && (|images| > 0 ==> currentIndex < |images|)
    }

    constructor (images: seq<string>)
      ensures this.images == images && Valid()
      ensures currentIndex == 0 && scaleQuarters == DefaultQuarters && is3DMode
      ensures rotationX == 0.0 && rotationY == 0.0 && !isDragging
    {
      this.images := images;
      currentIndex := 0;
      scaleQuarters := DefaultQuarters;
      is3DMode := true;
      rotationX, rotationY := 0.0, 0.0;
      isDragging := false;
      dragStartX, dragStartY := 0.0, 0.0;
    }

    /** The effect run when the viewer is opened. */
    method Opened()
      requires Valid()
      modifies this`scaleQuarters, this`rotationX, this`rotationY, this`currentIndex
      ensures Valid()
      ensures scaleQuarters == DefaultQuarters && rotationX == 0.0 && rotationY == 0.0 && currentIndex == 0
      ensures is3DMode == old(is3DMode) && isDragging == old(isDragging)
    {
      scaleQuarters := DefaultQuarters;
      rotationX, rotationY := 0.0, 0.0;
      currentIndex := 0;
    }

    method HandleZoomIn()
      requires Valid()
      modifies this`scaleQuarters
      ensures Valid() && scaleQuarters == ZoomIn(old(scaleQuarters))
      ensures old(scaleQuarters) == MaxQuarters ==> scaleQuarters == old(scaleQuarters)
      ensures currentIndex == old(currentIndex) && rotationX == old(rotationX) && rotationY == old(rotationY)
    {
      scaleQuarters := ZoomIn(scaleQuarters);
    }

    method HandleZoomOut()
      requires Valid()
      modifies this`scaleQuarters
      ensures Valid() && scaleQuarters == ZoomOut(old(scaleQuarters))
      ensures old(scaleQuarters) == MinQuarters ==> scaleQuarters == old(scaleQuarters)
      ensures currentIndex == old(currentIndex) && rotationX == old(rotationX) && rotationY == old(rotationY)
    {
      scaleQuarters := ZoomOut(scaleQuarters);
    }

    method HandleReset()
      requires Valid()
      modifies this`scaleQuarters, this`rotationX, this`rotationY
      ensures Valid() && scaleQuarters == DefaultQuarters && rotationX == 0.0 && rotationY == 0.0
      ensures currentIndex == old(currentIndex) && is3DMode == old(is3DMode)
    {
      scaleQuarters := DefaultQuarters;
      rotationX, rotationY := 0.0, 0.0;
    }

    /** A wheel turn: up (negative deltaY) zooms in, anything else zooms out. */
    method HandleWheel(deltaY: real)
      requires Valid()
      modifies this`scaleQuarters
      ensures Valid()
      ensures scaleQuarters == if deltaY < 0.0 then ZoomIn(old(scaleQuarters)) else ZoomOut(old(scaleQuarters))
      ensures currentIndex == old(currentIndex) && rotationX == old(rotationX) && rotationY == old(rotationY)
    {
      if deltaY < 0.0 {
        HandleZoomIn();
      } else {
        HandleZoomOut();
      }
    }

    method HandleMouseDown(clientX: real, clientY: real)
      requires Valid()
      modifies this`isDragging, this`dragStartX, this`dragStartY
      ensures Valid()
      ensures !old(is3DMode) ==> isDragging == old(isDragging) && dragStartX == old(dragStartX) && dragStartY == old(dragStartY)
      ensures old(is3DMode) ==> isDragging && dragStartX == clientX && dragStartY == clientY
      ensures rotationX == old(rotationX) && rotationY == old(rotationY) && scaleQuarters == old(scaleQuarters)
    {
      if !is3DMode {
        return;
      }
      isDragging := true;
      dragStartX, dragStartY := clientX, clientY;
    }

    /** A drag step: tilt by 0.2 per pixel down, clamped to [-30, 30], and
        turn by 0.3 per pixel right; ignored unless dragging in 3D mode. */
    method HandleMouseMove(clientX: real, clientY: real)
      requires Valid()
      modifies this`rotationX, this`rotationY, this`dragStartX, this`dragStartY
      ensures Valid()
      ensures !(old(isDragging) && old(is3DMode)) ==>
        rotationX == old(rotationX) && rotationY == old(rotationY)
        && dragStartX == old(dragStartX) && dragStartY == old(dragStartY)
      ensures old(isDragging) && old(is3DMode) ==>
        && rotationX == ClampTilt(old(rotationX) + (clientY - old(dragStartY)) * 0.2)
        && rotationY == old(rotationY) + (clientX - old(dragStartX)) * 0.3
        && dragStartX == clientX && dragStartY == clientY
      ensures currentIndex == old(currentIndex) && scaleQuarters == old(scaleQuarters)
      ensures isDragging == old(isDragging) && is3DMode == old(is3DMode)
    {
      if !isDragging || !is3DMode {
        return;
      }
      var deltaX := clientX - dragStartX;
      var deltaY := clientY - dragStartY;
      rotationX, rotationY := ClampTilt(rotationX + deltaY * 0.2), rotationY + deltaX * 0.3;
      dragStartX, dragStartY := clientX, clientY;
    }

    method HandleMouseUp()
      modifies this`isDragging
      ensures !isDragging
      ensures rotationX == old(rotationX) && rotationY == old(rotationY) && scaleQuarters == old(scaleQuarters)
      ensures currentIndex == old(currentIndex)
    {
      isDragging := false;
    }

    /** The 2D and 3D toggle buttons. */
    method SetMode(threeD: bool)
      modifies this`is3DMode
      ensures is3DMode == threeD
      ensures rotationX == old(rotationX) && rotationY == old(rotationY) && scaleQuarters == old(scaleQuarters)
      ensures currentIndex == old(currentIndex) && isDragging == old(isDragging)
    {
      is3DMode := threeD;
    }

    method NextImage()
      requires Valid() && |images| > 0
      modifies this`currentIndex, this`rotationY
      ensures Valid()
      ensures currentIndex == Cyclic.Next(old(currentIndex), |images|)
      ensures rotationY == old(rotationY) + 180.0 && rotationX == old(rotationX)
      ensures scaleQuarters == old(scaleQuarters)
    {
      currentIndex := (currentIndex + 1) % |images|;
      rotationY := rotationY + 180.0;
    }

    method PrevImage()
      requires Valid() && |images| > 0
      modifies this`currentIndex, this`rotationY
      ensures Valid()
      ensures currentIndex == Cyclic.Prev(old(currentIndex), |images|)
      ensures rotationY == old(rotationY) - 180.0 && rotationX == old(rotationX)
      ensures scaleQuarters == old(scaleQuarters)
    {
      currentIndex := (currentIndex - 1 + |images|) % |images|;
      rotationY := rotationY - 180.0;
    }

    /** A thumbnail click. */
    method SelectImage(idx: nat)
      requires Valid() && idx < |images|
      modifies this`currentIndex
      ensures Valid() && currentIndex == idx
      ensures rotationX == old(rotationX) && rotationY == old(rotationY) && scaleQuarters == old(scaleQuarters)
    {
      currentIndex := idx;
    }
  }

  /** Next then previous image restores both the index and the turn. */
  method NextThenPrev(v: Viewer)
    requires v.Valid() && |v.images| > 0
    modifies v`currentIndex, v`rotationY
    ensures v.Valid()
    ensures v.currentIndex == old(v.currentIndex) && v.rotationY == old(v.rotationY)
  {
    v.NextImage();
    v.PrevImage();
    Cyclic.NextPrevInverse(old(v.currentIndex), |v.images|);
  }
}
