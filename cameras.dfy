/** The camera: the affine map between screen and world coordinates
    (`screen_to_world`, `world_to_screen`), zooming about the cursor with the
    mouse wheel and panning with the middle button. The program keeps the
    camera in globals (`camera_zoom`, `camera_offset`, `is_panning`,
    `pan_start_pos`); here they are the fields of one object. */
module Cameras {
  import opened Vectors
  import opened Wrappers

  /** Half the 1000 x 800 window: the screen point that shows `offset`. */
  const SCREEN_CENTER: Vec2 := Vec2(500.0, 400.0)
  /** One wheel notch multiplies or divides the zoom by this factor. */
  const ZOOM_STEP: real := 1.1

  /** `world_to_screen`: the camera offset is the world point drawn at the
      screen centre, and for a non-zero zoom the only one. */
  function WorldToScreen(zoom: real, offset: Vec2, w: Vec2): (s: Vec2)
    ensures zoom != 0.0 ==> (s == SCREEN_CENTER <==> w == offset)
  {
    Add(Scale(Sub(w, offset), zoom), SCREEN_CENTER)
  }

  /** `screen_to_world`; `world_to_screen` undoes it. */
  function ScreenToWorld(zoom: real, offset: Vec2, s: Vec2): (w: Vec2)
    requires zoom != 0.0
    ensures WorldToScreen(zoom, offset, w) == s
  {
    Add(Div(Sub(s, SCREEN_CENTER), zoom), offset)
  }

  /** The other direction of the round trip. */
  lemma ScreenToWorldUndoesWorldToScreen(zoom: real, offset: Vec2, w: Vec2)
    requires zoom != 0.0
    ensures ScreenToWorld(zoom, offset, WorldToScreen(zoom, offset, w)) == w
  {
  }

  /** The offset correction after a zoom change: add the difference between
      the world point under the cursor before and after the change. The
      cursor then shows the same world point as before. */
  function ZoomedOffset(zoom: real, newZoom: real, offset: Vec2, cursor: Vec2): (o: Vec2)
    requires zoom != 0.0 && newZoom != 0.0
    ensures ScreenToWorld(newZoom, o, cursor) == ScreenToWorld(zoom, offset, cursor)
  {
    Add(offset, Sub(ScreenToWorld(zoom, offset, cursor), ScreenToWorld(newZoom, offset, cursor)))
  }

  /** One frame of panning: move the offset by the cursor's movement since the
      last frame, scaled by the zoom. The world point that was under the
      previous cursor position is under the current one afterwards. */
  function PannedOffset(zoom: real, offset: Vec2, start: Vec2, current: Vec2): (o: Vec2)
    requires zoom != 0.0
    ensures ScreenToWorld(zoom, o, current) == ScreenToWorld(zoom, offset, start)
  {
    Add(offset, Div(Sub(start, current), zoom))
  }

  class Camera {
    var zoom: real
    var offset: Vec2
    var isPanning: bool
    var panStart: Option<Vec2>

    ghost predicate Valid()
      reads this
    {
      zoom > 0.0 && (isPanning ==> panStart.Some?)
    }

    /** The initial camera (and the one every scenario load starts from). */
    constructor ()
      ensures Valid()
      ensures zoom == 1.0 && offset == SCREEN_CENTER
      ensures !isPanning && panStart == None
    {
      zoom := 1.0;
      offset := SCREEN_CENTER;
      isPanning := false;
      panStart := None;
    }

    function ToWorld(s: Vec2): Vec2
      reads this
      requires Valid()
    {
      ScreenToWorld(zoom, offset, s)
    }

    /** Mouse-wheel zoom (buttons 4 and 5): multiply or divide the zoom by 1.1,
        then correct the offset so that the cursor keeps showing the same
        world point. */
    method WheelZoom(cursor: Vec2, zoomIn: bool)
      requires Valid()
      modifies this
      ensures Valid()
      ensures zoom == if zoomIn then old(zoom) * ZOOM_STEP else old(zoom) / ZOOM_STEP
      ensures ToWorld(cursor) == old(ToWorld(cursor))
      ensures isPanning == old(isPanning) && panStart == old(panStart)
    {
      var worldBefore := ScreenToWorld(zoom, offset, cursor);
      if zoomIn {
        zoom := zoom * ZOOM_STEP;
      } else {
        zoom := zoom / ZOOM_STEP;
      }
      offset := Add(offset, Sub(worldBefore, ScreenToWorld(zoom, offset, cursor)));
      assert offset == ZoomedOffset(old(zoom), zoom, old(offset), cursor);
    }

    /** Middle button pressed: start panning from the cursor. */
    method BeginPan(cursor: Vec2)
      requires Valid()
      modifies this
      ensures Valid()
      ensures isPanning && panStart == Some(cursor)
      ensures zoom == old(zoom) && offset == old(offset)
    {
      isPanning := true;
      panStart := Some(cursor);
    }

    /** Middle button released. */
    method EndPan()
      requires Valid()
      modifies this
      ensures Valid()
      ensures !isPanning && panStart == None
      ensures zoom == old(zoom) && offset == old(offset)
    {
      isPanning := false;
      panStart := None;
    }

    /** Per-frame pan step: while panning, the world point that was under the
        previous cursor position moves under the current one. */
    method PanFrame(cursor: Vec2)
      requires Valid()
      modifies this
      ensures Valid()
      ensures zoom == old(zoom) && isPanning == old(isPanning)
      ensures old(isPanning) ==>
                panStart == Some(cursor) && ToWorld(cursor) == old(ToWorld(panStart.value))
      ensures !old(isPanning) ==> offset == old(offset) && panStart == old(panStart)
    {
      if isPanning {
        var delta := Sub(panStart.value, cursor);
        offset := Add(offset, Div(delta, zoom));
        assert offset == PannedOffset(zoom, old(offset), old(panStart.value), cursor);
        panStart := Some(cursor);
      }
    }

    /** The camera part of loading a scenario: zoom 1 and the default offset. */
    method Reset()
      requires Valid()
      modifies this
      ensures Valid()
      ensures zoom == 1.0 && offset == SCREEN_CENTER
      ensures isPanning == old(isPanning) && panStart == old(panStart)
    {
      zoom := 1.0;
      offset := SCREEN_CENTER;
    }
  }
}
