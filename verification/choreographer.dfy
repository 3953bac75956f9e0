/** The pointer choreographer: a stateful object between the input reader
    and the dispatcher. It keeps the device table, the viewports and the
    settings, owns the controller directory, reports the mouse pointer's
    display to the policy, and forwards every notification downstream,
    rewriting mouse motion to absolute coordinates. */
module Choreographer {
  import opened InputTypes
  import opened PointerControllers
  import opened Routing
  import opened TouchSpots
  import opened ControllerDirectory

  class PointerChoreographer {
    var devices: seq<DeviceInfo>
    var viewports: seq<Viewport>
    var defaultMouseDisplayId: DisplayId
    var showTouchesEnabled: bool
    var stylusPointerIconEnabled: bool
    // Recorded only: nothing in the choreographer reads the capture flag
    // back. Capture acts at the moment it turns on (every mouse pointer is
    // hidden), and MOUSE_RELATIVE motion passes through whether or not
    // capture is on.
    var pointerCaptureEnabled: bool
    var controllers: Directory
    var notifiedDisplayId: DisplayId

    // What the collaborators see: the controller kinds the policy's factory
    // was asked for (a controller's id is its index here), the displays the
    // policy's callback received, and the notifications the next listener
    // received.
    var created: seq<ControllerType>
    var displayIdNotifications: seq<DisplayId>
    var forwarded: seq<NotifyArgs>

    function CurrentSettings(): Settings
      reads this
    {
      Settings(defaultMouseDisplayId, showTouchesEnabled, stylusPointerIconEnabled)
    }

    ghost predicate NotifierValid()
      reads this
    {
      notifiedDisplayId == LastNotified(displayIdNotifications) && NoRepeats(displayIdNotifications)
    }

    /** The directory holds only warranted, well-formed, bound controllers,
        and the last reported display is the one due now. */
    ghost predicate Valid()
      reads this
    {
      && WellFormed(controllers, created)
      && AllWarranted(controllers, devices, CurrentSettings())
      && BoundToViewports(controllers, viewports)
      && NotifierValid()
      && notifiedDisplayId == MouseDisplayToNotify(controllers, defaultMouseDisplayId)
      && OwnBuckets(controllers)
    }

    /** The controllers created and since released: the choreographer holds
        no reference to any of them. */
    ghost function ReleasedControllers(): set<nat>
      reads this
    {
      Released(controllers, created)
    }

    constructor ()
      ensures Valid()
      ensures devices == [] && viewports == [] && controllers == map[]
      ensures defaultMouseDisplayId == ADISPLAY_ID_NONE
      ensures !showTouchesEnabled && !stylusPointerIconEnabled && !pointerCaptureEnabled
      ensures created == [] && displayIdNotifications == [] && forwarded == []
    {
      devices := [];
      viewports := [];
      defaultMouseDisplayId := ADISPLAY_ID_NONE;
      showTouchesEnabled := false;
      stylusPointerIconEnabled := false;
      pointerCaptureEnabled := false;
      controllers := map[];
      notifiedDisplayId := ADISPLAY_ID_NONE;
      created := [];
      displayIdNotifications := [];
      forwarded := [];
    }

    /** Calls the policy back when the display due to be reported differs
        from the last one reported: takes the last reported display and the
        reports so far, gives back both after the call. */
    static method NotifyPointerDisplayIdChanged(notified: DisplayId, log: seq<DisplayId>, displayIdToNotify: DisplayId)
      returns (notified': DisplayId, log': seq<DisplayId>)
      requires notified == LastNotified(log)
      ensures notified' == displayIdToNotify
      ensures log' == Notified(log, displayIdToNotify)
    {
      notified', log' := notified, log;
      if notified == displayIdToNotify {
        return;
      }
      log' := log + [displayIdToNotify];
      notified' := displayIdToNotify;
    }

    /** Releases every controller whose context is no longer warranted, then
        reports the pointer display if it changed. */
    method UpdatePointerControllers()
      requires WellFormed(controllers, created) && BoundToViewports(controllers, viewports) && NotifierValid()
      requires OwnBuckets(controllers)
      modifies this`controllers, this`notifiedDisplayId, this`displayIdNotifications
      ensures Valid()
      ensures controllers == Reconciled(old(controllers), devices, CurrentSettings())
      ensures displayIdNotifications
              == Notified(old(displayIdNotifications), MouseDisplayToNotify(controllers, defaultMouseDisplayId))
      ensures old(ReleasedControllers()) <= ReleasedControllers()
    {
      ReconcileOnlyReleases(controllers, created, devices, CurrentSettings(), viewports);
      var ctrls' := Reconciled(controllers, devices, CurrentSettings());
      var notified', log' := NotifyPointerDisplayIdChanged(notifiedDisplayId, displayIdNotifications,
                                                          MouseDisplayToNotify(ctrls', defaultMouseDisplayId));
      controllers, notifiedDisplayId, displayIdNotifications := ctrls', notified', log';
    }

    method NotifyInputDevicesChanged(changeId: int, inputDeviceInfos: seq<DeviceInfo>)
      requires Valid()
      modifies this
      ensures Valid()
      ensures devices == inputDeviceInfos
      ensures viewports == old(viewports) && CurrentSettings() == old(CurrentSettings())
      ensures pointerCaptureEnabled == old(pointerCaptureEnabled)
      ensures created == old(created)
      ensures controllers == Reconciled(old(controllers), inputDeviceInfos, CurrentSettings())
      ensures displayIdNotifications
              == Notified(old(displayIdNotifications), MouseDisplayToNotify(controllers, defaultMouseDisplayId))
      ensures old(ReleasedControllers()) <= ReleasedControllers()
      ensures forwarded == old(forwarded) + [InputDevicesChanged(changeId, inputDeviceInfos)]
    {
      devices := inputDeviceInfos;
      UpdatePointerControllers();
      forwarded := forwarded + [InputDevicesChanged(changeId, inputDeviceInfos)];
    }

    method SetDisplayViewports(newViewports: seq<Viewport>)
      requires Valid()
      modifies this
      ensures Valid()
      ensures viewports == newViewports
      ensures devices == old(devices) && CurrentSettings() == old(CurrentSettings())
      ensures pointerCaptureEnabled == old(pointerCaptureEnabled)
      ensures created == old(created) && forwarded == old(forwarded)
      ensures controllers == Rebound(old(controllers), newViewports)
      ensures displayIdNotifications
              == Notified(old(displayIdNotifications), MouseDisplayToNotify(controllers, defaultMouseDisplayId))
      ensures ReleasedControllers() == old(ReleasedControllers())
    {
      ReboundBinds(controllers, created, devices, CurrentSettings(), newViewports);
      var ctrls' := Rebound(controllers, newViewports);
      var notified', log' := NotifyPointerDisplayIdChanged(notifiedDisplayId, displayIdNotifications,
                                                          MouseDisplayToNotify(ctrls', defaultMouseDisplayId));
      controllers, viewports, notifiedDisplayId, displayIdNotifications := ctrls', newViewports, notified', log';
    }

    method SetDefaultMouseDisplayId(displayId: DisplayId)
      requires Valid()
      modifies this
      ensures Valid()
      ensures defaultMouseDisplayId == displayId
      ensures showTouchesEnabled == old(showTouchesEnabled)
      ensures stylusPointerIconEnabled == old(stylusPointerIconEnabled)
      ensures devices == old(devices) && viewports == old(viewports)
      ensures pointerCaptureEnabled == old(pointerCaptureEnabled)
      ensures created == old(created) && forwarded == old(forwarded)
      ensures controllers == Reconciled(old(controllers), devices, CurrentSettings())
      ensures displayIdNotifications
              == Notified(old(displayIdNotifications), MouseDisplayToNotify(controllers, defaultMouseDisplayId))
      ensures old(ReleasedControllers()) <= ReleasedControllers()
    {
      defaultMouseDisplayId := displayId;
      UpdatePointerControllers();
    }

    method SetShowTouchesEnabled(enabled: bool)
      requires Valid()
      modifies this
      ensures Valid()
      ensures showTouchesEnabled == enabled
      ensures defaultMouseDisplayId == old(defaultMouseDisplayId)
      ensures stylusPointerIconEnabled == old(stylusPointerIconEnabled)
      ensures devices == old(devices) && viewports == old(viewports)
      ensures pointerCaptureEnabled == old(pointerCaptureEnabled)
      ensures created == old(created) && forwarded == old(forwarded)
      ensures controllers == Reconciled(old(controllers), devices, CurrentSettings())
      ensures displayIdNotifications
              == Notified(old(displayIdNotifications), MouseDisplayToNotify(controllers, defaultMouseDisplayId))
      ensures old(ReleasedControllers()) <= ReleasedControllers()
    {
      showTouchesEnabled := enabled;
      UpdatePointerControllers();
    }

    method SetStylusPointerIconEnabled(enabled: bool)
      requires Valid()
      modifies this
      ensures Valid()
      ensures stylusPointerIconEnabled == enabled
      ensures defaultMouseDisplayId == old(defaultMouseDisplayId)
      ensures showTouchesEnabled == old(showTouchesEnabled)
      ensures devices == old(devices) && viewports == old(viewports)
      ensures pointerCaptureEnabled == old(pointerCaptureEnabled)
      ensures created == old(created) && forwarded == old(forwarded)
      ensures controllers == Reconciled(old(controllers), devices, CurrentSettings())
      ensures displayIdNotifications
              == Notified(old(displayIdNotifications), MouseDisplayToNotify(controllers, defaultMouseDisplayId))
      ensures old(ReleasedControllers()) <= ReleasedControllers()
    {
      stylusPointerIconEnabled := enabled;
      UpdatePointerControllers();
    }

    /** Routes the event, creates its controller if the event calls for one
        and the context has none (at most one per call), lets the controller
        handle the event, and forwards the event, rewritten for a mouse. */
    method NotifyMotion(args: MotionArgs)
      requires Valid()
      modifies this
      ensures Valid()
      ensures devices == old(devices) && viewports == old(viewports) && CurrentSettings() == old(CurrentSettings())
      ensures pointerCaptureEnabled == old(pointerCaptureEnabled)
      ensures var r := RouteMotion(devices, CurrentSettings(), args);
        && created == old(created) + (if CreatesController(old(controllers), r, args) then [r.ctx.kind] else [])
        && controllers == ControllersAfterMotion(old(controllers), |old(created)|, viewports, r, args)
        && forwarded == old(forwarded) + [Motion(ForwardedMotion(r, args, controllers))]
      ensures displayIdNotifications
              == Notified(old(displayIdNotifications), MouseDisplayToNotify(controllers, defaultMouseDisplayId))
      ensures old(ReleasedControllers()) <= ReleasedControllers()
    {
      var route := RouteMotion(devices, CurrentSettings(), args);
      MotionKeepsDirectoryValid(controllers, created, devices, CurrentSettings(), viewports, args);
      MotionKeepsOwnBuckets(controllers, |created|, viewports, route, args);
      var ctrls', created' := ApplyMotion(controllers, created, viewports, route, args);
      var notified', log' := NotifyPointerDisplayIdChanged(notifiedDisplayId, displayIdNotifications,
                                                          MouseDisplayToNotify(ctrls', defaultMouseDisplayId));
      controllers, created, notifiedDisplayId, displayIdNotifications := ctrls', created', notified', log';
      forwarded := forwarded + [Motion(ForwardedMotion(route, args, controllers))];
    }

    /** The directory step of a motion event: the routed context's controller,
        fetched or newly created, handles the event. At most one controller
        is created, for the routed context, with the factory's next id, and
        only on a creating action; every other controller is left as it was. */
    static method ApplyMotion(ctrls: Directory, created: seq<ControllerType>, viewports: seq<Viewport>,
                              route: MotionRoute, args: MotionArgs)
      returns (ctrls': Directory, created': seq<ControllerType>)
      requires Fits(route, args)
      ensures ctrls' == ControllersAfterMotion(ctrls, |created|, viewports, route, args)
      ensures created' == created + (if CreatesController(ctrls, route, args) then [route.ctx.kind] else [])
      ensures ctrls'.Keys == ctrls.Keys + (if CreatesController(ctrls, route, args) then {route.ctx} else {})
      ensures forall c :: c in ctrls && (route.PassThrough? || c != route.ctx) ==> ctrls'[c] == ctrls[c]
      ensures CreatesController(ctrls, route, args) ==>
                ctrls'[route.ctx].id == |created| && ctrls'[route.ctx].kind == route.ctx.kind
      ensures route.Routed? && route.ctx in ctrls ==>
                ctrls'[route.ctx].id == ctrls[route.ctx].id && ctrls'[route.ctx].displayId == ctrls[route.ctx].displayId
    {
      ctrls', created' := ctrls, created;
      if route.Routed? && (route.ctx in ctrls || CreationTrigger(route.ctx.kind, args.action)) {
        var ctx := route.ctx;
        var pc: PointerController;
        if ctx in ctrls {
          pc := ctrls[ctx];
        } else {
          pc := FreshController(|created|, ctx, viewports);
          created' := created + [ctx.kind];
        }
        pc := HandleMotion(pc, ctx, args);
        ctrls' := ctrls[ctx := pc];
      }
    }

    /** One controller handles one event routed to it: a mouse moves by the
        event's relative axes and shows; a stylus hover exit hides and keeps
        the position, any other stylus hover moves to the event's position
        and shows; a touch event replaces the spots of the context's display
        and nothing else. The controller's identity and binding never change. */
    static method HandleMotion(pc: PointerController, ctx: Context, args: MotionArgs) returns (handled: PointerController)
      requires ctx.kind == TouchController || |args.pointers| > 0
      ensures handled == Handled(pc, ctx, args)
      ensures handled.id == pc.id && handled.kind == pc.kind && handled.displayId == pc.displayId
      ensures ctx.kind == MouseController ==>
                && handled.x == pc.x + args.pointers[0].relativeX && handled.y == pc.y + args.pointers[0].relativeY
                && handled.shown && handled.spots == pc.spots
      ensures ctx.kind == StylusController && args.action == HoverExit ==>
                !handled.shown && handled.x == pc.x && handled.y == pc.y && handled.spots == pc.spots
      ensures ctx.kind == StylusController && args.action != HoverExit ==>
                handled.shown && handled.x == args.pointers[0].x && handled.y == args.pointers[0].y && handled.spots == pc.spots
      ensures ctx.kind == TouchController ==>
                && handled.x == pc.x && handled.y == pc.y && handled.shown == pc.shown
                && handled.spots.Keys == pc.spots.Keys + {ctx.displayId}
                && handled.spots[ctx.displayId] == SpotsAfter(args.action, args.pointers)
                && (forall d :: d in pc.spots && d != ctx.displayId ==> handled.spots[d] == pc.spots[d])
    {
      match ctx.kind {
        case MouseController =>
          handled := Unfade(MoveBy(pc, args.pointers[0].relativeX, args.pointers[0].relativeY));
        case StylusController =>
          if args.action == HoverExit {
            handled := Fade(pc);
          } else {
            handled := Unfade(SetPosition(pc, args.pointers[0].x, args.pointers[0].y));
          }
        case TouchController =>
          var ids := ComputeSpotIds(args.action, args.pointers);
          handled := SetSpots(pc, ctx.displayId, ids);
      }
    }

    /** Clears the touch spots and hides the stylus pointer of the device's
        display; creates and releases nothing. */
    method NotifyDeviceReset(deviceId: DeviceId)
      requires Valid()
      modifies this
      ensures Valid()
      ensures devices == old(devices) && viewports == old(viewports) && CurrentSettings() == old(CurrentSettings())
      ensures pointerCaptureEnabled == old(pointerCaptureEnabled)
      ensures created == old(created) && displayIdNotifications == old(displayIdNotifications)
      ensures controllers == ControllersAfterReset(old(controllers), devices, deviceId)
      ensures FindDeviceIndex(devices, deviceId).Some? ==>
                var d := devices[FindDeviceIndex(devices, deviceId).value];
                var touch := Context(TouchController, d.associatedDisplayId);
                Touchscreen in d.sources && touch in old(controllers) ==>
                  controllers[touch].spots == old(controllers)[touch].spots - {d.associatedDisplayId}
      ensures ReleasedControllers() == old(ReleasedControllers())
      ensures forwarded == old(forwarded) + [DeviceReset(deviceId)]
    {
      var ctrls' := ControllersAfterReset(controllers, devices, deviceId);
      match FindDeviceIndex(devices, deviceId) {
        case None =>
        case Some(i) =>
          ResetClearsSpotsAndFades(controllers, devices, deviceId, i);
          PresentationKeepsDirectory(controllers, ctrls', created, devices, CurrentSettings(), viewports);
          FewerBucketsKeepOwnBuckets(controllers, ctrls');
      }
      controllers, forwarded := ctrls', forwarded + [DeviceReset(deviceId)];
    }

    /** Records the capture state; turning capture on hides every mouse
        pointer at once. */
    method NotifyPointerCaptureChanged(enable: bool)
      requires Valid()
      modifies this
      ensures Valid()
      ensures pointerCaptureEnabled == enable
      ensures devices == old(devices) && viewports == old(viewports) && CurrentSettings() == old(CurrentSettings())
      ensures created == old(created) && displayIdNotifications == old(displayIdNotifications)
      ensures controllers == if enable then MiceFaded(old(controllers)) else old(controllers)
      ensures ReleasedControllers() == old(ReleasedControllers())
      ensures forwarded == old(forwarded) + [PointerCaptureChanged(enable)]
    {
      pointerCaptureEnabled := enable;
      if enable {
        CaptureFadesMice(controllers);
        FewerBucketsKeepOwnBuckets(controllers, MiceFaded(controllers));
        PresentationKeepsDirectory(controllers, MiceFaded(controllers), created, devices, CurrentSettings(), viewports);
        controllers := MiceFaded(controllers);
      }
      forwarded := forwarded + [PointerCaptureChanged(enable)];
    }

    /** Dispatches any notification to its handler; the next listener gets
        exactly one notification of the same kind. */
    method Notify(args: NotifyArgs)
      requires Valid()
      modifies this
      ensures Valid()
      ensures |created| <= |old(created)| + 1
      ensures old(ReleasedControllers()) <= ReleasedControllers()
      ensures |forwarded| == |old(forwarded)| + 1 && forwarded[..|old(forwarded)|] == old(forwarded)
      ensures KindOf(forwarded[|old(forwarded)|]) == KindOf(args)
      ensures !args.Motion? ==> forwarded[|old(forwarded)|] == args
      // each handler's new state
      ensures args.InputDevicesChanged? ==>
                && devices == args.inputDeviceInfos
                && controllers == Reconciled(old(controllers), devices, CurrentSettings())
      ensures args.Motion? ==>
                var r := RouteMotion(devices, CurrentSettings(), args.motion);
                && controllers == ControllersAfterMotion(old(controllers), |old(created)|, viewports, r, args.motion)
                && forwarded[|old(forwarded)|] == Motion(ForwardedMotion(r, args.motion, controllers))
      ensures args.DeviceReset? ==> controllers == ControllersAfterReset(old(controllers), devices, args.resetDeviceId)
      ensures args.PointerCaptureChanged? ==>
                && pointerCaptureEnabled == args.enable
                && controllers == if args.enable then MiceFaded(old(controllers)) else old(controllers)
      ensures !args.Motion? ==> created == old(created)
      ensures args.InputDevicesChanged? ==>
                displayIdNotifications
                == Notified(old(displayIdNotifications), MouseDisplayToNotify(controllers, defaultMouseDisplayId))
      ensures args.DeviceReset? || args.PointerCaptureChanged? ==>
                displayIdNotifications == old(displayIdNotifications)
      ensures !args.InputDevicesChanged? ==> devices == old(devices)
      ensures viewports == old(viewports) && CurrentSettings() == old(CurrentSettings())
      ensures !args.PointerCaptureChanged? ==> pointerCaptureEnabled == old(pointerCaptureEnabled)
      // key, configuration, sensor, switch and vibrator notifications are
      // only passed on
      ensures (args.Key? || args.ConfigurationChanged? || args.Sensor? || args.Switch? || args.VibratorState?) ==>
                && controllers == old(controllers) && created == old(created)
                && displayIdNotifications == old(displayIdNotifications)
    {
      match args {
        case InputDevicesChanged(changeId, infos) => NotifyInputDevicesChanged(changeId, infos);
        case Motion(m) => NotifyMotion(m);
        case DeviceReset(deviceId) => NotifyDeviceReset(deviceId);
        case PointerCaptureChanged(enable) => NotifyPointerCaptureChanged(enable);
        case _ => forwarded := forwarded + [args];
      }
    }

    /** What a holder of a controller does when it moves the pointer itself
        (the test fixture's setPosition): the controller with identity `id`
        moves to (x, y); nothing else changes. */
    method SetControllerPosition(id: nat, x: int, y: int)
      requires Valid()
      modifies this`controllers
      ensures Valid()
      ensures controllers == PositionSet(old(controllers), id, x, y)
      ensures ReleasedControllers() == old(ReleasedControllers())
    {
      PositionSetMovesOne(controllers, id, x, y);
      FewerBucketsKeepOwnBuckets(controllers, PositionSet(controllers, id, x, y));
      PresentationKeepsDirectory(controllers, PositionSet(controllers, id, x, y), created, devices, CurrentSettings(), viewports);
      controllers := PositionSet(controllers, id, x, y);
    }
  }
}
