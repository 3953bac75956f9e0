/** Scenarios of the choreographer. Each step makes one call and states the
    whole observable state before and after it; a scenario chains steps the
    way the repository's test cases chain calls, so every observation the
    collaborators make follows from the methods' contracts alone. */
module Scenarios {
  import opened InputTypes
  import opened PointerControllers
  import opened Routing
  import opened TouchSpots
  import opened ControllerDirectory
  import opened Choreographer
  import opened TestFixture

  const MOUSE: DeviceInfo := GenerateTestDeviceInfo(DEVICE_ID, {Mouse}, ADISPLAY_ID_NONE)
  const RELATIVE_MOUSE: DeviceInfo := GenerateTestDeviceInfo(DEVICE_ID, {MouseRelative}, ADISPLAY_ID_NONE)
  const TOUCHSCREEN: DeviceInfo := GenerateTestDeviceInfo(DEVICE_ID, {Touchscreen}, DISPLAY_ID)
  const STYLUS: DeviceInfo := GenerateTestDeviceInfo(DEVICE_ID, {Stylus}, DISPLAY_ID)

  const ONE_DISPLAY: seq<Viewport> := [DisplayViewport(DISPLAY_ID)]
  const TWO_DISPLAYS: seq<Viewport> := [DisplayViewport(DISPLAY_ID), DisplayViewport(ANOTHER_DISPLAY_ID)]

  const ASSOCIATED_MOUSE: DeviceInfo := GenerateTestDeviceInfo(DEVICE_ID, {Mouse}, DISPLAY_ID)

  const ASSOCIATED_MOUSE_EVENT: MotionArgs := MotionEvent(HoverMove, {Mouse}, [MOUSE_POINTER], DEVICE_ID, DISPLAY_ID)
  const MOUSE_EVENT: MotionArgs := MotionEvent(HoverMove, {Mouse}, [MOUSE_POINTER], DEVICE_ID, ADISPLAY_ID_NONE)
  const RELATIVE_EVENT: MotionArgs :=
    MotionEvent(Move, {MouseRelative}, [PointerCoords(0, 10, 20, 10, 20)], DEVICE_ID, ADISPLAY_ID_NONE)

  /** The choreographer's observable state, all of it but the forwarded
      notifications and the capture flag. */
  ghost predicate InState(c: PointerChoreographer, devices: seq<DeviceInfo>, viewports: seq<Viewport>, s: Settings,
                          created: seq<ControllerType>, controllers: Directory, log: seq<DisplayId>)
    reads c
  {
    && c.Valid()
    && c.devices == devices && c.viewports == viewports && c.CurrentSettings() == s
    && c.created == created && c.controllers == controllers && c.displayIdNotifications == log
  }

  /** The only controller, with identity 0, for context `ctx`. */
  function Only(ctx: Context, displayId: DisplayId, x: int, y: int, shown: bool, spots: map<DisplayId, set<int>>): Directory {
    map[ctx := PointerController(0, ctx.kind, displayId, x, y, shown, spots)]
  }

  /** A choreographer that has been given viewports, settings and a device
      table but no motion yet: it holds no controller and has reported no
      display. */
  method Setup(viewports: seq<Viewport>, defaultMouseDisplayId: DisplayId, showTouches: bool, stylusIcon: bool,
               devices: seq<DeviceInfo>) returns (c: PointerChoreographer)
    ensures fresh(c) && !c.pointerCaptureEnabled
    ensures InState(c, devices, viewports, Settings(defaultMouseDisplayId, showTouches, stylusIcon), [], map[], [])
  {
    c := new PointerChoreographer();
    c.SetDisplayViewports(viewports);
    c.SetDefaultMouseDisplayId(defaultMouseDisplayId);
    c.SetShowTouchesEnabled(showTouches);
    c.SetStylusPointerIconEnabled(stylusIcon);
    c.NotifyInputDevicesChanged(0, devices);
  }

  // --- Mouse ---

  /** The first event of the unassociated mouse creates its controller on the
      default display, bound if the display has a viewport; the bound display
      is reported. */
  method FirstMouseEvent(c: PointerChoreographer, viewports: seq<Viewport>, bound: DisplayId)
    requires viewports == [] || viewports[0] == DisplayViewport(DISPLAY_ID)
    requires bound == if viewports == [] then ADISPLAY_ID_NONE else DISPLAY_ID
    requires InState(c, [MOUSE], viewports, Settings(DISPLAY_ID, false, false), [], map[], [])
    modifies c
    ensures InState(c, [MOUSE], viewports, Settings(DISPLAY_ID, false, false), [MouseController],
                    Only(Context(MouseController, DISPLAY_ID), bound, 10, 20, true, map[]),
                    if bound == ADISPLAY_ID_NONE then [] else [DISPLAY_ID])
  {
    assert viewports != [] ==> viewports[0].displayId == DISPLAY_ID;
    assert Notified([], DISPLAY_ID) == [DISPLAY_ID];
    assert Notified([], ADISPLAY_ID_NONE) == [];
    c.NotifyMotion(MOUSE_EVENT);
  }

  /** Removing the mouse releases its controller and reports no display. */
  method MouseRemoved(c: PointerChoreographer)
    requires InState(c, [MOUSE], ONE_DISPLAY, Settings(DISPLAY_ID, false, false), [MouseController],
                     Only(Context(MouseController, DISPLAY_ID), DISPLAY_ID, 10, 20, true, map[]), [DISPLAY_ID])
    modifies c
    ensures InState(c, [], ONE_DISPLAY, Settings(DISPLAY_ID, false, false), [MouseController], map[],
                    [DISPLAY_ID, ADISPLAY_ID_NONE])
    ensures 0 in c.ReleasedControllers()
  {
    assert Notified([DISPLAY_ID], ADISPLAY_ID_NONE) == [DISPLAY_ID, ADISPLAY_ID_NONE];
    c.NotifyInputDevicesChanged(1, []);
  }

  /** A viewport arriving later binds the existing controller and reports
      its display. */
  method MouseViewportArrives(c: PointerChoreographer)
    requires InState(c, [MOUSE], [], Settings(DISPLAY_ID, false, false), [MouseController],
                     Only(Context(MouseController, DISPLAY_ID), ADISPLAY_ID_NONE, 10, 20, true, map[]), [])
    modifies c
    ensures InState(c, [MOUSE], ONE_DISPLAY, Settings(DISPLAY_ID, false, false), [MouseController],
                    Only(Context(MouseController, DISPLAY_ID), DISPLAY_ID, 10, 20, true, map[]), [DISPLAY_ID])
  {
    assert ONE_DISPLAY[0].displayId == DISPLAY_ID;
    assert Notified([], DISPLAY_ID) == [DISPLAY_ID];
    c.SetDisplayViewports(ONE_DISPLAY);
  }

  /** Moving the default mouse display releases the controller of the old
      one and reports no display. */
  method DefaultDisplayMoved(c: PointerChoreographer)
    requires InState(c, [MOUSE], TWO_DISPLAYS, Settings(DISPLAY_ID, false, false), [MouseController],
                     Only(Context(MouseController, DISPLAY_ID), DISPLAY_ID, 10, 20, true, map[]), [DISPLAY_ID])
    modifies c
    ensures InState(c, [MOUSE], TWO_DISPLAYS, Settings(ANOTHER_DISPLAY_ID, false, false), [MouseController], map[],
                    [DISPLAY_ID, ADISPLAY_ID_NONE])
    ensures 0 in c.ReleasedControllers()
  {
    assert Notified([DISPLAY_ID], ADISPLAY_ID_NONE) == [DISPLAY_ID, ADISPLAY_ID_NONE];
    c.SetDefaultMouseDisplayId(ANOTHER_DISPLAY_ID);
  }

  /** The next mouse event creates a second controller, on the new default
      display, and reports that display. */
  method MouseEventOnNewDefault(c: PointerChoreographer)
    requires InState(c, [MOUSE], TWO_DISPLAYS, Settings(ANOTHER_DISPLAY_ID, false, false), [MouseController], map[],
                     [DISPLAY_ID, ADISPLAY_ID_NONE])
    modifies c
    ensures InState(c, [MOUSE], TWO_DISPLAYS, Settings(ANOTHER_DISPLAY_ID, false, false),
                    [MouseController, MouseController],
                    map[Context(MouseController, ANOTHER_DISPLAY_ID) :=
                          PointerController(1, MouseController, ANOTHER_DISPLAY_ID, 10, 20, true, map[])],
                    [DISPLAY_ID, ADISPLAY_ID_NONE, ANOTHER_DISPLAY_ID])
  {
    NewDefaultGetsSecondController(c.devices, c.CurrentSettings(), c.viewports);
    NewDefaultReported(c.displayIdNotifications);
    c.NotifyMotion(MOUSE_EVENT);
  }

  /** The mouse event on the new default display creates controller 1 there,
      bound, moved and shown, and that display is reported. */
  lemma NewDefaultGetsSecondController(devices: seq<DeviceInfo>, s: Settings, viewports: seq<Viewport>)
    requires devices == [MOUSE] && s == Settings(ANOTHER_DISPLAY_ID, false, false) && viewports == TWO_DISPLAYS
    ensures var r := RouteMotion(devices, s, MOUSE_EVENT);
      && r == Routed(Context(MouseController, ANOTHER_DISPLAY_ID))
      && CreatesController(map[], r, MOUSE_EVENT)
      && ControllersAfterMotion(map[], 1, viewports, r, MOUSE_EVENT)
         == map[Context(MouseController, ANOTHER_DISPLAY_ID) :=
                  PointerController(1, MouseController, ANOTHER_DISPLAY_ID, 10, 20, true, map[])]
  {
    RoutedToNewDefault(devices, s);
    SecondControllerHandles(viewports);
    CreatedAlone(Routed(Context(MouseController, ANOTHER_DISPLAY_ID)), 1, viewports, MOUSE_EVENT,
                 PointerController(1, MouseController, ANOTHER_DISPLAY_ID, 10, 20, true, map[]));
  }

  /** The new default display is reported after the "none" report. */
  lemma NewDefaultReported(log: seq<DisplayId>)
    requires log == [DISPLAY_ID, ADISPLAY_ID_NONE]
    ensures Notified(log, ANOTHER_DISPLAY_ID) == [DISPLAY_ID, ADISPLAY_ID_NONE, ANOTHER_DISPLAY_ID]
  {
  }

  /** With the default moved, the mouse's events go to the new default
      display. */
  lemma RoutedToNewDefault(devices: seq<DeviceInfo>, s: Settings)
    requires devices == [MOUSE] && s == Settings(ANOTHER_DISPLAY_ID, false, false)
    ensures RouteMotion(devices, s, MOUSE_EVENT) == Routed(Context(MouseController, ANOTHER_DISPLAY_ID))
  {
    assert FindDeviceIndex(devices, DEVICE_ID) == Some(0);
  }

  /** The factory's second controller, for the new default display, is bound
      at once and handles the event. */
  lemma SecondControllerHandles(viewports: seq<Viewport>)
    requires viewports == TWO_DISPLAYS
    ensures var ctx := Context(MouseController, ANOTHER_DISPLAY_ID);
      Handled(FreshController(1, ctx, viewports), ctx, MOUSE_EVENT)
      == PointerController(1, MouseController, ANOTHER_DISPLAY_ID, 10, 20, true, map[])
  {
    assert viewports[1].displayId == ANOTHER_DISPLAY_ID;
  }

  /** An event that creates the only controller leaves a directory of that
      one controller. */
  lemma CreatedAlone(r: MotionRoute, nextId: nat, viewports: seq<Viewport>, m: MotionArgs, pc: PointerController)
    requires r.Routed? && Fits(r, m) && CreationTrigger(r.ctx.kind, m.action)
    requires Handled(FreshController(nextId, r.ctx, viewports), r.ctx, m) == pc
    ensures ControllersAfterMotion(map[], nextId, viewports, r, m) == map[r.ctx := pc]
  {
    // The map equality, taken key by key: at once it is far costlier.
    var after := ControllersAfterMotion(map[], nextId, viewports, r, m);
    assert r.ctx in after && after[r.ctx] == pc;
    forall k | k in after ensures k == r.ctx {}
    assert after.Keys == map[r.ctx := pc].Keys;
  }

  /** With no default mouse display and no viewport, the unassociated
      mouse's first event creates its controller for no display, unbound;
      no display is due to be reported. */
  method MouseEventWithoutDefault(c: PointerChoreographer)
    requires InState(c, [MOUSE], [], Settings(ADISPLAY_ID_NONE, false, false), [], map[], [])
    modifies c
    ensures InState(c, [MOUSE], [], Settings(ADISPLAY_ID_NONE, false, false), [MouseController],
                    Only(Context(MouseController, ADISPLAY_ID_NONE), ADISPLAY_ID_NONE, 10, 20, true, map[]), [])
  {
    assert Notified([], ADISPLAY_ID_NONE) == [];
    c.NotifyMotion(MOUSE_EVENT);
  }

  /** Removing that mouse releases its controller; still nothing is
      reported. */
  method UnboundMouseRemoved(c: PointerChoreographer)
    requires InState(c, [MOUSE], [], Settings(ADISPLAY_ID_NONE, false, false), [MouseController],
                     Only(Context(MouseController, ADISPLAY_ID_NONE), ADISPLAY_ID_NONE, 10, 20, true, map[]), [])
    modifies c
    ensures InState(c, [], [], Settings(ADISPLAY_ID_NONE, false, false), [MouseController], map[], [])
    ensures 0 in c.ReleasedControllers()
  {
    assert Notified([], ADISPLAY_ID_NONE) == [];
    c.NotifyInputDevicesChanged(1, []);
  }

  /** The first event of a mouse associated with DISPLAY_ID, with no default
      mouse display, creates its controller on the associated display,
      bound if that display has a viewport; no display is due to be
      reported, as there is no default mouse display. */
  method FirstAssociatedMouseEvent(c: PointerChoreographer, viewports: seq<Viewport>, bound: DisplayId)
    requires viewports == [] || viewports == ONE_DISPLAY
    requires bound == if viewports == [] then ADISPLAY_ID_NONE else DISPLAY_ID
    requires InState(c, [ASSOCIATED_MOUSE], viewports, Settings(ADISPLAY_ID_NONE, false, false), [], map[], [])
    modifies c
    ensures InState(c, [ASSOCIATED_MOUSE], viewports, Settings(ADISPLAY_ID_NONE, false, false), [MouseController],
                    Only(Context(MouseController, DISPLAY_ID), bound, 10, 20, true, map[]), [])
  {
    assert viewports != [] ==> viewports[0].displayId == DISPLAY_ID;
    assert Notified([], ADISPLAY_ID_NONE) == [];
    c.NotifyMotion(ASSOCIATED_MOUSE_EVENT);
  }

  /** A viewport arriving later binds the associated mouse's controller. */
  method AssociatedMouseViewportArrives(c: PointerChoreographer)
    requires InState(c, [ASSOCIATED_MOUSE], [], Settings(ADISPLAY_ID_NONE, false, false), [MouseController],
                     Only(Context(MouseController, DISPLAY_ID), ADISPLAY_ID_NONE, 10, 20, true, map[]), [])
    modifies c
    ensures InState(c, [ASSOCIATED_MOUSE], ONE_DISPLAY, Settings(ADISPLAY_ID_NONE, false, false), [MouseController],
                    Only(Context(MouseController, DISPLAY_ID), DISPLAY_ID, 10, 20, true, map[]), [])
  {
    assert ONE_DISPLAY[0].displayId == DISPLAY_ID;
    assert Notified([], ADISPLAY_ID_NONE) == [];
    c.SetDisplayViewports(ONE_DISPLAY);
  }

  /** The holder of the controller puts the pointer at (100, 200). */
  method MousePlaced(c: PointerChoreographer)
    requires InState(c, [MOUSE], ONE_DISPLAY, Settings(DISPLAY_ID, false, false), [MouseController],
                     Only(Context(MouseController, DISPLAY_ID), DISPLAY_ID, 10, 20, true, map[]), [DISPLAY_ID])
    modifies c`controllers
    ensures InState(c, [MOUSE], ONE_DISPLAY, Settings(DISPLAY_ID, false, false), [MouseController],
                    Only(Context(MouseController, DISPLAY_ID), DISPLAY_ID, 100, 200, true, map[]), [DISPLAY_ID])
  {
    c.SetControllerPosition(0, 100, 200);
  }

  /** A mouse event moves the pointer by (10, 20) and leaves with the new
      position as coordinates and cursor position, on the mouse's display. */
  method MouseMovesPointer(c: PointerChoreographer)
    requires InState(c, [MOUSE], ONE_DISPLAY, Settings(DISPLAY_ID, false, false), [MouseController],
                     Only(Context(MouseController, DISPLAY_ID), DISPLAY_ID, 100, 200, true, map[]), [DISPLAY_ID])
    modifies c
    ensures InState(c, [MOUSE], ONE_DISPLAY, Settings(DISPLAY_ID, false, false), [MouseController],
                    Only(Context(MouseController, DISPLAY_ID), DISPLAY_ID, 110, 220, true, map[]), [DISPLAY_ID])
    ensures c.forwarded == old(c.forwarded) +
              [Motion(MOUSE_EVENT.(pointers := [MOUSE_POINTER.(x := 110, y := 220)],
                                   displayId := DISPLAY_ID, cursorPosition := CursorAt(110, 220)))]
  {
    assert Notified([DISPLAY_ID], DISPLAY_ID) == [DISPLAY_ID];
    assert FindDeviceIndex([MOUSE], DEVICE_ID) == Some(0);
    assert RouteMotion([MOUSE], Settings(DISPLAY_ID, false, false), MOUSE_EVENT)
        == Routed(Context(MouseController, DISPLAY_ID));
    c.NotifyMotion(MOUSE_EVENT);
    assert c.controllers[Context(MouseController, DISPLAY_ID)]
        == PointerController(0, MouseController, DISPLAY_ID, 110, 220, true, map[]);
    assert [MOUSE_POINTER][0 := MOUSE_POINTER.(x := 110, y := 220)] == [MOUSE_POINTER.(x := 110, y := 220)];
  }

  /** The mouse turns into a relative one: it keeps its controller. */
  method MouseBecomesRelative(c: PointerChoreographer)
    requires InState(c, [MOUSE], ONE_DISPLAY, Settings(DISPLAY_ID, false, false), [MouseController],
                     Only(Context(MouseController, DISPLAY_ID), DISPLAY_ID, 100, 200, true, map[]), [DISPLAY_ID])
    modifies c
    ensures InState(c, [RELATIVE_MOUSE], ONE_DISPLAY, Settings(DISPLAY_ID, false, false), [MouseController],
                    Only(Context(MouseController, DISPLAY_ID), DISPLAY_ID, 100, 200, true, map[]), [DISPLAY_ID])
  {
    assert Notified([DISPLAY_ID], DISPLAY_ID) == [DISPLAY_ID];
    assert Warrants([RELATIVE_MOUSE][0], Settings(DISPLAY_ID, false, false), Context(MouseController, DISPLAY_ID));
    c.NotifyInputDevicesChanged(1, [RELATIVE_MOUSE]);
    assert c.controllers == Only(Context(MouseController, DISPLAY_ID), DISPLAY_ID, 100, 200, true, map[]);
  }

  /** Capture on hides the mouse pointer where it is. */
  method CaptureHidesPointer(c: PointerChoreographer, device: DeviceInfo, x: int, y: int)
    requires InState(c, [device], ONE_DISPLAY, Settings(DISPLAY_ID, false, false), [MouseController],
                     Only(Context(MouseController, DISPLAY_ID), DISPLAY_ID, x, y, true, map[]), [DISPLAY_ID])
    modifies c
    ensures InState(c, [device], ONE_DISPLAY, Settings(DISPLAY_ID, false, false), [MouseController],
                    Only(Context(MouseController, DISPLAY_ID), DISPLAY_ID, x, y, false, map[]), [DISPLAY_ID])
    ensures c.pointerCaptureEnabled
  {
    c.NotifyPointerCaptureChanged(true);
  }

  /** Relative motion reaches no controller and leaves unchanged. */
  method RelativeMotionPassesThrough(c: PointerChoreographer)
    requires InState(c, [RELATIVE_MOUSE], ONE_DISPLAY, Settings(DISPLAY_ID, false, false), [MouseController],
                     Only(Context(MouseController, DISPLAY_ID), DISPLAY_ID, 100, 200, false, map[]), [DISPLAY_ID])
    modifies c
    ensures InState(c, [RELATIVE_MOUSE], ONE_DISPLAY, Settings(DISPLAY_ID, false, false), [MouseController],
                    Only(Context(MouseController, DISPLAY_ID), DISPLAY_ID, 100, 200, false, map[]), [DISPLAY_ID])
    ensures c.forwarded == old(c.forwarded) + [Motion(RELATIVE_EVENT)]
  {
    assert Notified([DISPLAY_ID], DISPLAY_ID) == [DISPLAY_ID];
    assert RouteMotion([RELATIVE_MOUSE], Settings(DISPLAY_ID, false, false), RELATIVE_EVENT) == PassThrough;
    c.NotifyMotion(RELATIVE_EVENT);
    assert c.created == [MouseController];
    assert c.controllers == Only(Context(MouseController, DISPLAY_ID), DISPLAY_ID, 100, 200, false, map[]);
    assert c.displayIdNotifications == [DISPLAY_ID];
  }

  // --- Touch ---

  /** The touch controller of DISPLAY_ID, with the given spots there. */
  function Touch(ids: set<int>): Directory {
    Only(Context(TouchController, DISPLAY_ID), ADISPLAY_ID_NONE, 0, 0, false, map[DISPLAY_ID := ids])
  }

  /** One event of the touchscreen, with its controller already there or
      created by the event; the display's spots become `after`. */
  method TouchEvent(c: PointerChoreographer, action: Action, pointers: seq<PointerCoords>,
                    before: Directory, after: set<int>)
    requires before == map[] ==> action == Down
    requires before == map[] || exists ids :: before == Touch(ids)
    requires after == SpotsAfter(action, pointers)
    requires InState(c, [TOUCHSCREEN], [], Settings(ADISPLAY_ID_NONE, true, false),
                     if before == map[] then [] else [TouchController], before, [])
    modifies c
    ensures InState(c, [TOUCHSCREEN], [], Settings(ADISPLAY_ID_NONE, true, false), [TouchController], Touch(after), [])
  {
    assert Notified([], ADISPLAY_ID_NONE) == [];
    assert !HasViewport([], DISPLAY_ID);
    assert FindDeviceIndex([TOUCHSCREEN], DEVICE_ID) == Some(0);
    assert RouteMotion([TOUCHSCREEN], Settings(ADISPLAY_ID_NONE, true, false),
                       MotionEvent(action, {Touchscreen}, pointers, DEVICE_ID, DISPLAY_ID))
        == Routed(Context(TouchController, DISPLAY_ID));
    c.NotifyMotion(MotionEvent(action, {Touchscreen}, pointers, DEVICE_ID, DISPLAY_ID));
    assert c.created == [TouchController];
    assert c.controllers[Context(TouchController, DISPLAY_ID)].spots == map[DISPLAY_ID := after];
    assert c.controllers == Touch(after);
  }

  /** Resetting the touchscreen removes its display's spot bucket. */
  method TouchReset(c: PointerChoreographer, ids: set<int>)
    requires InState(c, [TOUCHSCREEN], [], Settings(ADISPLAY_ID_NONE, true, false), [TouchController], Touch(ids), [])
    modifies c
    ensures InState(c, [TOUCHSCREEN], [], Settings(ADISPLAY_ID_NONE, true, false), [TouchController],
                    Only(Context(TouchController, DISPLAY_ID), ADISPLAY_ID_NONE, 0, 0, false, map[]), [])
  {
    c.NotifyDeviceReset(DEVICE_ID);
  }

  /** Show touches off releases the touch controller. */
  method ShowTouchesOff(c: PointerChoreographer, ids: set<int>)
    requires InState(c, [TOUCHSCREEN], [], Settings(ADISPLAY_ID_NONE, true, false), [TouchController], Touch(ids), [])
    modifies c
    ensures InState(c, [TOUCHSCREEN], [], Settings(ADISPLAY_ID_NONE, false, false), [TouchController], map[], [])
    ensures 0 in c.ReleasedControllers()
  {
    assert Notified([], ADISPLAY_ID_NONE) == [];
    c.SetShowTouchesEnabled(false);
  }

  // --- Stylus ---

  /** The stylus controller of DISPLAY_ID. */
  function StylusAt(bound: DisplayId, x: int, y: int, shown: bool): Directory {
    Only(Context(StylusController, DISPLAY_ID), bound, x, y, shown, map[])
  }

  /** A hover enter creates the stylus controller, bound if the display has a
      viewport, and shows the pointer at the event's position. */
  method StylusEnter(c: PointerChoreographer, viewports: seq<Viewport>, bound: DisplayId)
    requires viewports == [] || viewports[0] == DisplayViewport(DISPLAY_ID)
    requires bound == if viewports == [] then ADISPLAY_ID_NONE else DISPLAY_ID
    requires InState(c, [STYLUS], viewports, Settings(ADISPLAY_ID_NONE, false, true), [], map[], [])
    modifies c
    ensures InState(c, [STYLUS], viewports, Settings(ADISPLAY_ID_NONE, false, true), [StylusController],
                    StylusAt(bound, 100, 200, true), [])
  {
    assert viewports != [] ==> viewports[0].displayId == DISPLAY_ID;
    assert Notified([], ADISPLAY_ID_NONE) == [];
    c.NotifyMotion(MotionEvent(HoverEnter, {Stylus}, [STYLUS_POINTER], DEVICE_ID, DISPLAY_ID));
  }

  /** A hover move places and shows the pointer; a hover exit hides it where
      it is. */
  method StylusHover(c: PointerChoreographer, action: Action, x: int, y: int, x': int, y': int)
    requires action == HoverMove || action == HoverExit
    requires InState(c, [STYLUS], ONE_DISPLAY, Settings(ADISPLAY_ID_NONE, false, true), [StylusController],
                     StylusAt(DISPLAY_ID, x, y, true), [])
    modifies c
    ensures InState(c, [STYLUS], ONE_DISPLAY, Settings(ADISPLAY_ID_NONE, false, true), [StylusController],
                    if action == HoverExit then StylusAt(DISPLAY_ID, x, y, false) else StylusAt(DISPLAY_ID, x', y', true), [])
  {
    assert Notified([], ADISPLAY_ID_NONE) == [];
    c.NotifyMotion(MotionEvent(action, {Stylus}, [PointerCoords(0, x', y', 0, 0)], DEVICE_ID, DISPLAY_ID));
  }

  /** A viewport for another display leaves the stylus controller unbound. */
  method StylusOtherViewport(c: PointerChoreographer, viewports: seq<Viewport>)
    requires viewports == [DisplayViewport(ANOTHER_DISPLAY_ID)]
    requires InState(c, [STYLUS], [], Settings(ADISPLAY_ID_NONE, false, true), [StylusController],
                     StylusAt(ADISPLAY_ID_NONE, 100, 200, true), [])
    modifies c
    ensures InState(c, [STYLUS], viewports, Settings(ADISPLAY_ID_NONE, false, true),
                    [StylusController], StylusAt(ADISPLAY_ID_NONE, 100, 200, true), [])
  {
    assert !HasViewport(viewports, DISPLAY_ID);
    assert Notified([], ADISPLAY_ID_NONE) == [];
    c.SetDisplayViewports(viewports);
  }

  /** Resetting the stylus hides its pointer. */
  method StylusReset(c: PointerChoreographer)
    requires InState(c, [STYLUS], ONE_DISPLAY, Settings(ADISPLAY_ID_NONE, false, true), [StylusController],
                     StylusAt(DISPLAY_ID, 100, 200, true), [])
    modifies c
    ensures InState(c, [STYLUS], ONE_DISPLAY, Settings(ADISPLAY_ID_NONE, false, true), [StylusController],
                    StylusAt(DISPLAY_ID, 100, 200, false), [])
  {
    c.NotifyDeviceReset(DEVICE_ID);
  }

  // --- Several devices ---

  const SECOND_MOUSE: DeviceInfo := GenerateTestDeviceInfo(SECOND_DEVICE_ID, {Mouse}, ANOTHER_DISPLAY_ID)
  const SECOND_MOUSE_EVENT: MotionArgs :=
    MotionEvent(HoverMove, {Mouse}, [MOUSE_POINTER], SECOND_DEVICE_ID, ANOTHER_DISPLAY_ID)

  /** Of an unassociated mouse and a mouse associated with another display,
      each gets its own controller: the first on the default display, the
      second on its associated one, bound at once. */
  lemma TwoMiceGetTheirOwnControllers(devices: seq<DeviceInfo>, s: Settings, first: Directory)
    requires devices == [MOUSE, SECOND_MOUSE] && s == Settings(DISPLAY_ID, false, false)
    requires first == Only(Context(MouseController, DISPLAY_ID), DISPLAY_ID, 10, 20, true, map[])
    ensures RouteMotion(devices, s, MOUSE_EVENT) == Routed(Context(MouseController, DISPLAY_ID))
    ensures var r := RouteMotion(devices, s, SECOND_MOUSE_EVENT);
      && r == Routed(Context(MouseController, ANOTHER_DISPLAY_ID))
      && CreatesController(first, r, SECOND_MOUSE_EVENT)
      && ControllersAfterMotion(first, 1, TWO_DISPLAYS, r, SECOND_MOUSE_EVENT)[r.ctx].displayId == ANOTHER_DISPLAY_ID
  {
    assert FindDeviceIndex(devices, DEVICE_ID) == Some(0);
    assert FindDeviceIndex(devices, SECOND_DEVICE_ID) == Some(1);
    assert TWO_DISPLAYS[1].displayId == ANOTHER_DISPLAY_ID;
  }

  /** The associated mouse's event moves only its own pointer, from
      (300, 400) to (310, 420), and leaves with that position, its device
      and its display; the other mouse's pointer stays at (100, 200). */
  lemma AssociatedMouseMovesOnlyItsPointer(devices: seq<DeviceInfo>, s: Settings, ctrls: Directory)
    requires devices == [MOUSE, SECOND_MOUSE] && s == Settings(DISPLAY_ID, false, false)
    requires ctrls == map[Context(MouseController, DISPLAY_ID) :=
                            PointerController(0, MouseController, DISPLAY_ID, 100, 200, true, map[]),
                          Context(MouseController, ANOTHER_DISPLAY_ID) :=
                            PointerController(1, MouseController, ANOTHER_DISPLAY_ID, 300, 400, true, map[])]
    ensures var r := RouteMotion(devices, s, SECOND_MOUSE_EVENT);
      var after := ControllersAfterMotion(ctrls, 2, TWO_DISPLAYS, r, SECOND_MOUSE_EVENT);
      var moved := after[Context(MouseController, ANOTHER_DISPLAY_ID)];
      var out := ForwardedMotion(r, SECOND_MOUSE_EVENT, after);
      && after[Context(MouseController, DISPLAY_ID)] == ctrls[Context(MouseController, DISPLAY_ID)]
      && moved.x == 310 && moved.y == 420 && moved.shown && moved.displayId == ANOTHER_DISPLAY_ID
      && out.pointers[0].x == 310 && out.pointers[0].y == 420
      && out.deviceId == SECOND_DEVICE_ID && out.displayId == ANOTHER_DISPLAY_ID
      && out.cursorPosition == CursorAt(310, 420)
  {
    assert FindDeviceIndex(devices, SECOND_DEVICE_ID) == Some(1);
    MouseMotionAccumulates(ctrls, 2, TWO_DISPLAYS, Routed(Context(MouseController, ANOTHER_DISPLAY_ID)),
                           SECOND_MOUSE_EVENT);
  }

  const TOUCH_STYLUS: DeviceInfo := GenerateTestDeviceInfo(DEVICE_ID, {Touchscreen, Stylus}, DISPLAY_ID)

  /** A DOWN from a touchscreen-and-stylus device is a touch, not a stylus
      hover: it creates the touch controller with one spot on the display. */
  lemma StylusDownIsTouch(devices: seq<DeviceInfo>, s: Settings, m: MotionArgs)
    requires devices == [TOUCH_STYLUS] && s == Settings(ADISPLAY_ID_NONE, true, false)
    requires m == MotionEvent(Down, {Touchscreen, Stylus}, [STYLUS_POINTER], DEVICE_ID, DISPLAY_ID)
    ensures var r := RouteMotion(devices, s, m);
      var after := ControllersAfterMotion(map[], 0, [], r, m);
      && r == Routed(Context(TouchController, DISPLAY_ID))
      && CreatesController(map[], r, m)
      && DISPLAY_ID in after[r.ctx].spots && |after[r.ctx].spots[DISPLAY_ID]| == 1
  {
    assert FindDeviceIndex(devices, DEVICE_ID) == Some(0);
    DownKeepsEverySpot(Down, m.pointers);
  }

  const SECOND_TOUCHSCREEN: DeviceInfo := GenerateTestDeviceInfo(SECOND_DEVICE_ID, {Touchscreen}, ANOTHER_DISPLAY_ID)

  /** Two touchscreens on two displays keep separate controllers: the second
      device's DOWN and POINTER_DOWN give its display two spots and leave the
      first display's controller as it was. */
  lemma TwoTouchscreensKeepSeparateSpots(devices: seq<DeviceInfo>, s: Settings, ctrls: Directory,
                                         down: MotionArgs, pointerDown: MotionArgs)
    requires devices == [TOUCHSCREEN, SECOND_TOUCHSCREEN] && s == Settings(ADISPLAY_ID_NONE, true, false)
    requires Context(TouchController, ANOTHER_DISPLAY_ID) !in ctrls
    requires down == MotionEvent(Down, {Touchscreen}, [FIRST_TOUCH_POINTER], SECOND_DEVICE_ID, ANOTHER_DISPLAY_ID)
    requires pointerDown == MotionEvent(PointerDown(0), {Touchscreen}, [FIRST_TOUCH_POINTER, SECOND_TOUCH_POINTER],
                                        SECOND_DEVICE_ID, ANOTHER_DISPLAY_ID)
    ensures var r := RouteMotion(devices, s, down);
      var r' := RouteMotion(devices, s, pointerDown);
      var after := ControllersAfterMotion(ctrls, 1, [], r, down);
      var after' := ControllersAfterMotion(after, 2, [], r', pointerDown);
      var second := Context(TouchController, ANOTHER_DISPLAY_ID);
      && r == r' == Routed(second)
      && CreatesController(ctrls, r, down) && !CreatesController(after, r', pointerDown)
      && ANOTHER_DISPLAY_ID in after'[second].spots && |after'[second].spots[ANOTHER_DISPLAY_ID]| == 2
      && (forall c :: c in ctrls ==> after'[c] == ctrls[c])
  {
    var second := Context(TouchController, ANOTHER_DISPLAY_ID);
    assert FindDeviceIndex(devices, SECOND_DEVICE_ID) == Some(1);
    TouchSetsOwnBucket(ctrls, 1, [], Routed(second), down);
    var after := ControllersAfterMotion(ctrls, 1, [], Routed(second), down);
    TouchSetsOwnBucket(after, 2, [], Routed(second), pointerDown);
    assert DistinctIds(pointerDown.pointers) by {
      assert pointerDown.pointers[0].id == 0 && pointerDown.pointers[1].id == 1;
    }
    DownKeepsEverySpot(PointerDown(0), pointerDown.pointers);
  }

  const SECOND_STYLUS: DeviceInfo := GenerateTestDeviceInfo(SECOND_DEVICE_ID, {Stylus}, ANOTHER_DISPLAY_ID)

  /** Two styluses on two displays move their own pointers: after the first
      hovers to (150, 250) and the second to (250, 350), each pointer is
      where its own stylus put it, and shown. */
  lemma TwoStylusesHoverIndependently(devices: seq<DeviceInfo>, s: Settings, ctrls: Directory,
                                      first: MotionArgs, second: MotionArgs)
    requires devices == [STYLUS, SECOND_STYLUS] && s == Settings(ADISPLAY_ID_NONE, false, true)
    requires Context(StylusController, DISPLAY_ID) in ctrls && Context(StylusController, ANOTHER_DISPLAY_ID) in ctrls
    requires first == MotionEvent(HoverMove, {Stylus}, [PointerCoords(0, 150, 250, 0, 0)], DEVICE_ID, DISPLAY_ID)
    requires second == MotionEvent(HoverMove, {Stylus}, [PointerCoords(0, 250, 350, 0, 0)],
                                   SECOND_DEVICE_ID, ANOTHER_DISPLAY_ID)
    ensures var r := RouteMotion(devices, s, first);
      var r' := RouteMotion(devices, s, second);
      var after := ControllersAfterMotion(ctrls, 2, TWO_DISPLAYS, r, first);
      var after' := ControllersAfterMotion(after, 2, TWO_DISPLAYS, r', second);
      var one := after'[Context(StylusController, DISPLAY_ID)];
      var two := after'[Context(StylusController, ANOTHER_DISPLAY_ID)];
      && r == Routed(Context(StylusController, DISPLAY_ID))
      && r' == Routed(Context(StylusController, ANOTHER_DISPLAY_ID))
      && one.x == 150 && one.y == 250 && one.shown
      && two.x == 250 && two.y == 350 && two.shown
  {
    var one := Context(StylusController, DISPLAY_ID);
    var two := Context(StylusController, ANOTHER_DISPLAY_ID);
    assert FindDeviceIndex(devices, DEVICE_ID) == Some(0);
    assert FindDeviceIndex(devices, SECOND_DEVICE_ID) == Some(1);
    StylusHoverPlacesPointer(ctrls, 2, TWO_DISPLAYS, Routed(one), first);
    var after := ControllersAfterMotion(ctrls, 2, TWO_DISPLAYS, Routed(one), first);
    MotionCreatesLazily(after, 2, TWO_DISPLAYS, Routed(two), second);
    StylusHoverPlacesPointer(after, 2, TWO_DISPLAYS, Routed(two), second);
  }

  // --- Scenarios ---

  /** Every kind of notification reaches the next listener, one for one. */
  method ForwardsArgsToInnerListener() {
    var c := new PointerChoreographer();
    var all := [InputDevicesChanged(0, []), ConfigurationChanged, Key, Motion(MotionEvent(Move, {}, [], 0, 0)),
                Sensor, Switch, DeviceReset(0), PointerCaptureChanged(false), VibratorState];
    var i := 0;
    while i < |all|
      invariant 0 <= i <= |all|
      invariant c.Valid() && |c.forwarded| == i
      invariant forall k :: 0 <= k < i ==> KindOf(c.forwarded[k]) == KindOf(all[k])
    {
      c.Notify(all[i]);
      i := i + 1;
    }
    assert KindOf(c.forwarded[3]) == MotionKind;
  }

  /** A keyboard never gets a controller. */
  method KeyboardGetsNoController() {
    var c := new PointerChoreographer();
    assert Notified([], ADISPLAY_ID_NONE) == [];
    c.NotifyInputDevicesChanged(0, [GenerateTestDeviceInfo(DEVICE_ID, {Keyboard}, ADISPLAY_ID_NONE)]);
    c.NotifyMotion(MotionEvent(Down, {Keyboard}, [FIRST_TOUCH_POINTER], DEVICE_ID, ADISPLAY_ID_NONE));
    assert c.created == [] && c.controllers == map[];
  }

  /** A mouse gets its controller on its first event, not when it is added;
      removing it releases the controller and reports no display. */
  method MouseControllerLifecycle() {
    var c := Setup(ONE_DISPLAY, DISPLAY_ID, false, false, [MOUSE]);
    assert c.created == [];
    FirstMouseEvent(c, ONE_DISPLAY, DISPLAY_ID);
    assert c.created == [MouseController] && c.displayIdNotifications == [DISPLAY_ID];
    MouseRemoved(c);
    assert c.controllers == map[] && 0 in c.ReleasedControllers();
    assert c.displayIdNotifications[|c.displayIdNotifications| - 1] == ADISPLAY_ID_NONE;
  }

  /** With no default display and no viewport, adding a mouse creates
      nothing, its first event creates its controller, and removing it
      releases that controller. */
  method MouseWithoutDefaultDisplayLifecycle() {
    var c := Setup([], ADISPLAY_ID_NONE, false, false, [MOUSE]);
    assert c.created == [];
    MouseEventWithoutDefault(c);
    assert c.created == [MouseController];
    UnboundMouseRemoved(c);
    assert c.controllers == map[] && 0 in c.ReleasedControllers();
    assert c.displayIdNotifications == [];
  }

  /** An associated mouse gets its controller on its first event, on the
      display it is associated with, which binds it at once. */
  method SetsViewportForAssociatedMouse() {
    var c := Setup(ONE_DISPLAY, ADISPLAY_ID_NONE, false, false, [ASSOCIATED_MOUSE]);
    assert c.created == [];
    FirstAssociatedMouseEvent(c, ONE_DISPLAY, DISPLAY_ID);
    assert c.created == [MouseController];
    assert c.controllers[Context(MouseController, DISPLAY_ID)].displayId == DISPLAY_ID;
  }

  /** Without a viewport the associated mouse's controller stays unbound;
      the viewport binds it. */
  method WhenViewportSetLaterSetsViewportForAssociatedMouse() {
    var c := Setup([], ADISPLAY_ID_NONE, false, false, [ASSOCIATED_MOUSE]);
    FirstAssociatedMouseEvent(c, [], ADISPLAY_ID_NONE);
    assert c.created == [MouseController];
    assert c.controllers[Context(MouseController, DISPLAY_ID)].displayId == ADISPLAY_ID_NONE;
    AssociatedMouseViewportArrives(c);
    assert c.controllers[Context(MouseController, DISPLAY_ID)].displayId == DISPLAY_ID;
  }

  /** Without a viewport the controller stays unbound and nothing is
      reported; the viewport binds it and its display is reported. */
  method WhenViewportIsSetLaterBindsAndNotifies() {
    var c := Setup([], DISPLAY_ID, false, false, [MOUSE]);
    FirstMouseEvent(c, [], ADISPLAY_ID_NONE);
    assert c.controllers[Context(MouseController, DISPLAY_ID)].displayId == ADISPLAY_ID_NONE;
    assert c.displayIdNotifications == [];
    MouseViewportArrives(c);
    assert c.controllers[Context(MouseController, DISPLAY_ID)].displayId == DISPLAY_ID;
    assert c.displayIdNotifications == [DISPLAY_ID];
  }

  /** Moving the default mouse display releases the old controller, reports
      no display, and the next event creates a controller on the new one. */
  method DefaultMouseDisplayChangeNotifies() {
    var c := Setup(TWO_DISPLAYS, DISPLAY_ID, false, false, [MOUSE]);
    FirstMouseEvent(c, TWO_DISPLAYS, DISPLAY_ID);
    DefaultDisplayMoved(c);
    assert 0 in c.ReleasedControllers() && c.created == [MouseController];
    MouseEventOnNewDefault(c);
    assert c.created == [MouseController, MouseController];
    assert c.controllers[Context(MouseController, ANOTHER_DISPLAY_ID)].displayId == ANOTHER_DISPLAY_ID;
    assert c.displayIdNotifications == [DISPLAY_ID, ADISPLAY_ID_NONE, ANOTHER_DISPLAY_ID];
  }

  /** A mouse pointer put at (100, 200) moves to (110, 220) and shows; the
      event leaves with that position. */
  method MouseMovesPointerAndReturnsNewArgs() {
    var c := Setup(ONE_DISPLAY, DISPLAY_ID, false, false, [MOUSE]);
    FirstMouseEvent(c, ONE_DISPLAY, DISPLAY_ID);
    MousePlaced(c);
    MouseMovesPointer(c);
    var pc := c.controllers[Context(MouseController, DISPLAY_ID)];
    assert pc.x == 110 && pc.y == 220 && pc.shown;
    var out := c.forwarded[|c.forwarded| - 1].motion;
    assert out.pointers[0].x == 110 && out.pointers[0].y == 220;
    assert out.displayId == DISPLAY_ID && out.cursorPosition == CursorAt(110, 220);
  }

  /** Under capture a relative mouse moves nothing and its events leave as
      they came. */
  method DoesNotMovePointerForMouseRelativeSource() {
    var c := Setup(ONE_DISPLAY, DISPLAY_ID, false, false, [MOUSE]);
    FirstMouseEvent(c, ONE_DISPLAY, DISPLAY_ID);
    MousePlaced(c);
    MouseBecomesRelative(c);
    CaptureHidesPointer(c, RELATIVE_MOUSE, 100, 200);
    RelativeMotionPassesThrough(c);
    var pc := c.controllers[Context(MouseController, DISPLAY_ID)];
    assert pc.x == 100 && pc.y == 200 && !pc.shown;
    assert c.forwarded[|c.forwarded| - 1] == Motion(RELATIVE_EVENT);
  }

  /** Capture on hides the mouse pointer a mouse event has just moved and
      shown. */
  method WhenPointerCaptureEnabledHidesPointer() {
    var c := Setup(ONE_DISPLAY, DISPLAY_ID, false, false, [MOUSE]);
    FirstMouseEvent(c, ONE_DISPLAY, DISPLAY_ID);
    MousePlaced(c);
    MouseMovesPointer(c);
    var pc := c.controllers[Context(MouseController, DISPLAY_ID)];
    assert pc.x == 110 && pc.y == 220 && pc.shown;
    CaptureHidesPointer(c, MOUSE, 110, 220);
    assert !c.controllers[Context(MouseController, DISPLAY_ID)].shown;
  }

  /** The spot sets of the two-finger gesture: the first finger, both, the
      first again, none. */
  lemma TwoFingerGestureSpots(one: seq<PointerCoords>, two: seq<PointerCoords>)
    requires one == [FIRST_TOUCH_POINTER] && two == [FIRST_TOUCH_POINTER, SECOND_TOUCH_POINTER]
    ensures SpotsAfter(Down, one) == {0}
    ensures SpotsAfter(PointerDown(1), two) == {0, 1}
    ensures SpotsAfter(PointerUp(1), two) == {0}
    ensures SpotsAfter(Up, one) == {}
  {
    assert DistinctIds(one) && DistinctIds(two);
    DownKeepsEverySpot(Down, one);
    DownKeepsEverySpot(PointerDown(1), two);
    DownKeepsEverySpot(Move, two);
    assert PointerIds(one) == {0} by {
      assert one[0].id == 0;
    }
    assert PointerIds(two) == {0, 1} by {
      assert two[0].id == 0 && two[1].id == 1;
    }
    PointerUpRemovesItsSpot(two, 1);
    GestureEndClearsSpots(Up, one);
  }

  /** The display's spots follow the gesture: the first finger, both, the
      first again, none; one controller serves the whole gesture. */
  method TouchSetsSpots() {
    var one := [FIRST_TOUCH_POINTER];
    var two := [FIRST_TOUCH_POINTER, SECOND_TOUCH_POINTER];
    var c := Setup([], ADISPLAY_ID_NONE, true, false, [TOUCHSCREEN]);
    TouchEvent(c, Down, one, map[], SpotsAfter(Down, one));
    TouchEvent(c, PointerDown(1), two, Touch(SpotsAfter(Down, one)), SpotsAfter(PointerDown(1), two));
    TouchEvent(c, PointerUp(1), two, Touch(SpotsAfter(PointerDown(1), two)), SpotsAfter(PointerUp(1), two));
    TouchEvent(c, Up, one, Touch(SpotsAfter(PointerUp(1), two)), SpotsAfter(Up, one));
    assert c.created == [TouchController];
    TwoFingerGestureSpots(one, two);
    assert |c.controllers[Context(TouchController, DISPLAY_ID)].spots[DISPLAY_ID]| == 0;
  }

  /** Resetting the touchscreen removes its spots. */
  method WhenTouchDeviceIsResetClearsSpots() {
    var c := Setup([], ADISPLAY_ID_NONE, true, false, [TOUCHSCREEN]);
    TouchEvent(c, Down, [FIRST_TOUCH_POINTER], map[], SpotsAfter(Down, [FIRST_TOUCH_POINTER]));
    assert DISPLAY_ID in c.controllers[Context(TouchController, DISPLAY_ID)].spots;
    TouchReset(c, SpotsAfter(Down, [FIRST_TOUCH_POINTER]));
    assert DISPLAY_ID !in c.controllers[Context(TouchController, DISPLAY_ID)].spots;
  }

  /** Turning show touches off releases the touch controller. */
  method WhenShowTouchesDisabledRemovesPointerController() {
    var c := Setup([], ADISPLAY_ID_NONE, true, false, [TOUCHSCREEN]);
    TouchEvent(c, Down, [FIRST_TOUCH_POINTER], map[], SpotsAfter(Down, [FIRST_TOUCH_POINTER]));
    assert c.created == [TouchController];
    ShowTouchesOff(c, SpotsAfter(Down, [FIRST_TOUCH_POINTER]));
    assert c.controllers == map[] && 0 in c.ReleasedControllers();
  }

  /** Hover enter shows the stylus pointer, hover move places it, hover exit
      hides it. */
  method StylusHoverManipulatesPointer() {
    var c := Setup(ONE_DISPLAY, ADISPLAY_ID_NONE, false, true, [STYLUS]);
    StylusEnter(c, ONE_DISPLAY, DISPLAY_ID);
    StylusHover(c, HoverMove, 100, 200, 150, 250);
    var pc := c.controllers[Context(StylusController, DISPLAY_ID)];
    assert pc.x == 150 && pc.y == 250 && pc.shown;
    StylusHover(c, HoverExit, 150, 250, 150, 250);
    assert !c.controllers[Context(StylusController, DISPLAY_ID)].shown;
  }

  /** A viewport of another display does not bind the stylus controller. */
  method WhenViewportDoesNotMatchDoesNotSetViewportForStylusPointerController() {
    var c := Setup([], ADISPLAY_ID_NONE, false, true, [STYLUS]);
    StylusEnter(c, [], ADISPLAY_ID_NONE);
    var viewports := CreateViewports([ANOTHER_DISPLAY_ID]);
    assert viewports == [DisplayViewport(ANOTHER_DISPLAY_ID)];
    StylusOtherViewport(c, viewports);
    assert c.controllers[Context(StylusController, DISPLAY_ID)].displayId == ADISPLAY_ID_NONE;
  }

  /** Resetting the stylus hides its pointer. */
  method WhenStylusDeviceIsResetFadesPointer() {
    var c := Setup(ONE_DISPLAY, ADISPLAY_ID_NONE, false, true, [STYLUS]);
    StylusEnter(c, ONE_DISPLAY, DISPLAY_ID);
    assert c.controllers[Context(StylusController, DISPLAY_ID)].shown;
    StylusReset(c);
    assert !c.controllers[Context(StylusController, DISPLAY_ID)].shown;
  }
}
