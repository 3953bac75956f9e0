/** The routing resolver: given the device table, the viewports and a
    snapshot of the settings, which controller context (if any) a device or
    an event belongs to, and which contexts are warranted at all. */
module Routing {
  import opened InputTypes
  import opened PointerControllers

  /** The settings the resolver reads, as one snapshot. */
  datatype Settings = Settings(
    defaultMouseDisplayId: DisplayId,
    showTouchesEnabled: bool,
    stylusPointerIconEnabled: bool)

  /** The first device in the table with the given id, by index. */
  function FindDeviceIndex(devices: seq<DeviceInfo>, deviceId: DeviceId): (r: Option<nat>)
    ensures r.Some? ==> r.value < |devices| && devices[r.value].id == deviceId
    ensures r.Some? ==> forall j :: 0 <= j < r.value ==> devices[j].id != deviceId
    ensures r.None? <==> forall j :: 0 <= j < |devices| ==> devices[j].id != deviceId
  {
    if |devices| == 0 then None
    else if devices[0].id == deviceId then Some(0)
    else match FindDeviceIndex(devices[1..], deviceId)
      case None => None
      case Some(i) => Some(i + 1)
  }

  /** A device keeps a mouse pointer alive when it has the MOUSE or the
      MOUSE_RELATIVE source. */
  predicate IsMouseDevice(d: DeviceInfo) {
    Mouse in d.sources || MouseRelative in d.sources
  }

  /** A mouse goes to its associated display, or to the default mouse
      display when it has none. */
  function TargetMouseDisplay(associatedDisplayId: DisplayId, defaultMouseDisplayId: DisplayId): DisplayId {
    if associatedDisplayId == ADISPLAY_ID_NONE then defaultMouseDisplayId else associatedDisplayId
  }

  /** Device `d`, under settings `s`, needs a controller for context `c`. */
  predicate Warrants(d: DeviceInfo, s: Settings, c: Context) {
    match c.kind
    case MouseController =>
      IsMouseDevice(d) && TargetMouseDisplay(d.associatedDisplayId, s.defaultMouseDisplayId) == c.displayId
    case TouchController =>
      s.showTouchesEnabled && Touchscreen in d.sources
      && d.associatedDisplayId != ADISPLAY_ID_NONE && d.associatedDisplayId == c.displayId
    case StylusController =>
      s.stylusPointerIconEnabled && Stylus in d.sources
      && d.associatedDisplayId != ADISPLAY_ID_NONE && d.associatedDisplayId == c.displayId
  }

  /** Some device of the table needs a controller for context `c`. */
  predicate Warranted(devices: seq<DeviceInfo>, s: Settings, c: Context) {
    exists i :: 0 <= i < |devices| && Warrants(devices[i], s, c)
  }

  predicate HasViewport(viewports: seq<Viewport>, displayId: DisplayId) {
    exists i :: 0 <= i < |viewports| && viewports[i].displayId == displayId
  }

  /** Where a motion event goes: to the controller of one context, or
      straight through. */
  datatype MotionRoute = PassThrough | Routed(ctx: Context)

  /** The kind of controller a motion event is for, whichever device sent
      it: a MOUSE-source event with pointers is for the mouse controller;
      with the stylus icon on, a STYLUS-source hover with pointers is for
      the stylus controller; any other TOUCHSCREEN-source event is for the
      touch controller; nothing else is for a controller. */
  function MotionKind(s: Settings, m: MotionArgs): Option<ControllerType> {
    if Mouse in m.source && |m.pointers| > 0 then Some(MouseController)
    else if s.stylusPointerIconEnabled && Stylus in m.source && IsHoverAction(m.action) && |m.pointers| > 0 then
      Some(StylusController)
    else if Touchscreen in m.source then Some(TouchController)
    else None
  }

  /** The context of the given kind that device `d` would use: a mouse goes
      to its target mouse display, a touchscreen or stylus to the display
      it is associated with. */
  function DeviceContext(d: DeviceInfo, s: Settings, kind: ControllerType): Context {
    if kind == MouseController then Context(kind, TargetMouseDisplay(d.associatedDisplayId, s.defaultMouseDisplayId))
    else Context(kind, d.associatedDisplayId)
  }

  /** A mouse event (MOUSE source) goes to the mouse context of its device;
      with the stylus icon on, a stylus hover goes to the stylus context of
      the device's display; any other TOUCHSCREEN event goes, with show
      touches on, to the touch context of the device's display. Events of
      unknown devices, and everything else (MOUSE_RELATIVE among them), pass
      through. */
  function RouteMotion(devices: seq<DeviceInfo>, s: Settings, m: MotionArgs): (r: MotionRoute)
    ensures r.Routed? ==> Warranted(devices, s, r.ctx)
    ensures r.Routed? ==> FindDeviceIndex(devices, m.deviceId).Some?
    ensures r.Routed? && r.ctx.kind == MouseController ==> Mouse in m.source && |m.pointers| > 0
    ensures r.Routed? && r.ctx.kind == StylusController ==>
              s.stylusPointerIconEnabled && Stylus in m.source && IsHoverAction(m.action) && |m.pointers| > 0
    ensures r.Routed? && r.ctx.kind == TouchController ==> s.showTouchesEnabled && Touchscreen in m.source
    ensures Mouse !in m.source && Stylus !in m.source && Touchscreen !in m.source ==> r == PassThrough
    ensures FindDeviceIndex(devices, m.deviceId).None? ==> r == PassThrough
    // tied to the sending device: the event goes to that device's context of
    // the event's kind, and does so exactly when the device warrants it
    ensures FindDeviceIndex(devices, m.deviceId).Some? ==>
              var d := devices[FindDeviceIndex(devices, m.deviceId).value];
              && (r.Routed? <==> MotionKind(s, m).Some? && Warrants(d, s, DeviceContext(d, s, MotionKind(s, m).value)))
              && (r.Routed? ==> r.ctx == DeviceContext(d, s, MotionKind(s, m).value))
  {
    match FindDeviceIndex(devices, m.deviceId)
    case None => PassThrough
    case Some(i) =>
      var d := devices[i];
      if Mouse in m.source && |m.pointers| > 0 then
        if IsMouseDevice(d) then
          Routed(Context(MouseController, TargetMouseDisplay(d.associatedDisplayId, s.defaultMouseDisplayId)))
        else PassThrough
      else if s.stylusPointerIconEnabled && Stylus in m.source && IsHoverAction(m.action) && |m.pointers| > 0 then
        if Stylus in d.sources && d.associatedDisplayId != ADISPLAY_ID_NONE then
          Routed(Context(StylusController, d.associatedDisplayId))
        else PassThrough
      else if Touchscreen in m.source then
        if s.showTouchesEnabled && Touchscreen in d.sources && d.associatedDisplayId != ADISPLAY_ID_NONE then
          Routed(Context(TouchController, d.associatedDisplayId))
        else PassThrough
      else PassThrough
  }

  /** The actions that may bring a controller into existence: any mouse
      motion, a touch (pointer) down, a stylus hover enter. */
  predicate CreationTrigger(kind: ControllerType, action: Action) {
    match kind
    case MouseController => true
    case TouchController => action == Down || action.PointerDown?
    case StylusController => action == HoverEnter
  }
}
