/** The fixture the choreographer's scenarios run in: the ids and display
    sizes they use, the pointers they send, and the helpers that build a
    device record, a viewport list and a motion event. */
module TestFixture {
  import opened InputTypes
  import opened Routing

  const DEVICE_ID: DeviceId := 3
  const SECOND_DEVICE_ID: DeviceId := DEVICE_ID + 1
  const DISPLAY_ID: DisplayId := 5
  const ANOTHER_DISPLAY_ID: DisplayId := 10
  const DISPLAY_WIDTH: int := 480
  const DISPLAY_HEIGHT: int := 800

  /** A mouse pointer moving by (10, 20). */
  const MOUSE_POINTER: PointerCoords := PointerCoords(0, 0, 0, 10, 20)
  const FIRST_TOUCH_POINTER: PointerCoords := PointerCoords(0, 100, 200, 0, 0)
  const SECOND_TOUCH_POINTER: PointerCoords := PointerCoords(1, 200, 300, 0, 0)
  const STYLUS_POINTER: PointerCoords := PointerCoords(0, 100, 200, 0, 0)

  /** A device record with the given id, sources and associated display. */
  function GenerateTestDeviceInfo(deviceId: DeviceId, sources: set<Source>, associatedDisplayId: DisplayId): (d: DeviceInfo)
    ensures d.id == deviceId && d.sources == sources && d.associatedDisplayId == associatedDisplayId
  {
    DeviceInfo(deviceId, sources, associatedDisplayId)
  }

  /** The full-size viewport of one display. */
  function DisplayViewport(displayId: DisplayId): Viewport {
    Viewport(displayId, DISPLAY_WIDTH, DISPLAY_HEIGHT)
  }

  /** One full-size viewport per display id, in the order given: exactly the
      listed displays have a viewport. */
  method CreateViewports(displayIds: seq<DisplayId>) returns (viewports: seq<Viewport>)
    ensures |viewports| == |displayIds|
    ensures forall i :: 0 <= i < |viewports| ==>
              viewports[i].displayId == displayIds[i]
              && viewports[i].logicalRight == DISPLAY_WIDTH && viewports[i].logicalBottom == DISPLAY_HEIGHT
    ensures forall d :: HasViewport(viewports, d) <==> d in displayIds
  {
    viewports := [];
    var i := 0;
    while i < |displayIds|
      invariant 0 <= i <= |displayIds|
      invariant |viewports| == i
      invariant forall k :: 0 <= k < i ==>
                  viewports[k].displayId == displayIds[k]
                  && viewports[k].logicalRight == DISPLAY_WIDTH && viewports[k].logicalBottom == DISPLAY_HEIGHT
    {
      viewports := viewports + [Viewport(displayIds[i], DISPLAY_WIDTH, DISPLAY_HEIGHT)];
      i := i + 1;
    }
    forall d | d in displayIds ensures HasViewport(viewports, d) {
      var k :| 0 <= k < |displayIds| && displayIds[k] == d;
      assert viewports[k].displayId == d;
    }
  }

  /** A motion event as the scenarios build it: no cursor position yet. */
  function MotionEvent(action: Action, source: set<Source>, pointers: seq<PointerCoords>,
                       deviceId: DeviceId, displayId: DisplayId): MotionArgs {
    MotionArgs(deviceId, source, action, pointers, displayId, InvalidCursorPosition)
  }
}
