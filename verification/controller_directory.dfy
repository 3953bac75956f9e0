/** The controller directory: the map from routing context to the live
    controller that serves it, and how each trigger changes it. A controller
    leaves the directory when its context stops being warranted; it is never
    created here except by a motion event. */
module ControllerDirectory {
  import opened InputTypes
  import opened PointerControllers
  import opened Routing
  import opened TouchSpots

  type Directory = map<Context, PointerController>

  /** Every entry serves the kind of its context and was handed out by the
      factory (`created` is the factory's log, indexed by controller id);
      no controller serves two contexts. */
  ghost predicate WellFormed(ctrls: Directory, created: seq<ControllerType>) {
    && (forall c :: c in ctrls ==>
          ctrls[c].kind == c.kind && ctrls[c].id < |created| && created[ctrls[c].id] == c.kind)
    && (forall c, c' :: c in ctrls && c' in ctrls && ctrls[c].id == ctrls[c'].id ==> c == c')
  }

  /** Every entry is needed by some device under the current settings. */
  ghost predicate AllWarranted(ctrls: Directory, devices: seq<DeviceInfo>, s: Settings) {
    forall c :: c in ctrls ==> Warranted(devices, s, c)
  }

  /** A controller is bound to its context's display or to none, and it is
      bound whenever that display has a viewport. */
  ghost predicate BoundToViewports(ctrls: Directory, viewports: seq<Viewport>) {
    forall c :: c in ctrls ==>
      && (ctrls[c].displayId == ADISPLAY_ID_NONE || ctrls[c].displayId == c.displayId)
      && (HasViewport(viewports, c.displayId) ==> ctrls[c].displayId == c.displayId)
  }

  ghost function LiveIds(ctrls: Directory): set<nat> {
    set c | c in ctrls :: ctrls[c].id
  }

  /** The controllers the factory created that the directory no longer holds. */
  ghost function Released(ctrls: Directory, created: seq<ControllerType>): set<nat> {
    set i: nat | i < |created| && i !in LiveIds(ctrls)
  }

  /** Reconciliation after a device, default-display or toggle change: keep
      exactly the warranted entries, untouched. */
  function Reconciled(ctrls: Directory, devices: seq<DeviceInfo>, s: Settings): Directory {
    map c | c in ctrls && Warranted(devices, s, c) :: ctrls[c]
  }

  /** A new viewport list binds every controller whose display it contains. */
  function Rebound(ctrls: Directory, viewports: seq<Viewport>): Directory {
    map c | c in ctrls ::
      if HasViewport(viewports, c.displayId) then SetDisplayViewport(ctrls[c], c.displayId) else ctrls[c]
  }

  /** A controller straight from the factory for context `ctx`, bound at
      once when its display already has a viewport. */
  function FreshController(id: nat, ctx: Context, viewports: seq<Viewport>): PointerController {
    var pc := Created(id, ctx.kind);
    if HasViewport(viewports, ctx.displayId) then SetDisplayViewport(pc, ctx.displayId) else pc
  }

  /** The event fits its route: mouse and stylus events carry a pointer. */
  predicate Fits(r: MotionRoute, m: MotionArgs) {
    r.Routed? ==> r.ctx.kind == TouchController || |m.pointers| > 0
  }

  /** What one routed event does to its controller: a mouse moves by the
      event's relative axes and shows; a stylus hover exit hides, any other
      hover puts the pointer at the event's position and shows; a touch
      event rebuilds the spot bucket of the context's display. */
  function Handled(pc: PointerController, ctx: Context, m: MotionArgs): PointerController
    requires ctx.kind == TouchController || |m.pointers| > 0
  {
    match ctx.kind
    case MouseController => Unfade(MoveBy(pc, m.pointers[0].relativeX, m.pointers[0].relativeY))
    case StylusController =>
      if m.action == HoverExit then Fade(pc) else Unfade(SetPosition(pc, m.pointers[0].x, m.pointers[0].y))
    case TouchController => SetSpots(pc, ctx.displayId, SpotsAfter(m.action, m.pointers))
  }

  /** The event needs a controller its context does not have yet. */
  predicate CreatesController(ctrls: Directory, r: MotionRoute, m: MotionArgs) {
    r.Routed? && r.ctx !in ctrls && CreationTrigger(r.ctx.kind, m.action)
  }

  /** The directory after a motion event routed by `r`; `nextId` is the id
      the factory gives its next controller. */
  function ControllersAfterMotion(
    ctrls: Directory, nextId: nat, viewports: seq<Viewport>, r: MotionRoute, m: MotionArgs): Directory
    requires Fits(r, m)
  {
    if r.PassThrough? then ctrls
    else if r.ctx in ctrls then ctrls[r.ctx := Handled(ctrls[r.ctx], r.ctx, m)]
    else if CreationTrigger(r.ctx.kind, m.action) then
      ctrls[r.ctx := Handled(FreshController(nextId, r.ctx, viewports), r.ctx, m)]
    else ctrls
  }

  /** The motion event passed downstream: a mouse event leaves with the
      pointer's new position as its coordinates and its cursor position,
      and with the mouse's display; anything else leaves as it came. */
  function ForwardedMotion(r: MotionRoute, m: MotionArgs, after: Directory): MotionArgs {
    if r.Routed? && r.ctx.kind == MouseController && r.ctx in after && |m.pointers| > 0 then
      var pc := after[r.ctx];
      m.(pointers := m.pointers[0 := m.pointers[0].(x := pc.x, y := pc.y)],
         displayId := r.ctx.displayId,
         cursorPosition := CursorAt(pc.x, pc.y))
    else m
  }

  /** A device reset clears the spots of the touch controller of the
      device's display and hides its stylus pointer. */
  function ControllersAfterReset(ctrls: Directory, devices: seq<DeviceInfo>, deviceId: DeviceId): Directory {
    match FindDeviceIndex(devices, deviceId)
    case None => ctrls
    case Some(i) =>
      var d := devices[i];
      var touch := Context(TouchController, d.associatedDisplayId);
      var stylus := Context(StylusController, d.associatedDisplayId);
      var cleared := if Touchscreen in d.sources && touch in ctrls then ctrls[touch := ClearSpots(ctrls[touch])] else ctrls;
      if Stylus in d.sources && stylus in cleared then cleared[stylus := Fade(cleared[stylus])] else cleared
  }

  /** Turning pointer capture on hides every mouse pointer. */
  function MiceFaded(ctrls: Directory): Directory {
    map c | c in ctrls :: if c.kind == MouseController then Fade(ctrls[c]) else ctrls[c]
  }

  /** The controller with identity `id`, wherever it is, moved to (x, y). */
  function PositionSet(ctrls: Directory, id: nat, x: int, y: int): Directory {
    map c | c in ctrls :: if ctrls[c].id == id then SetPosition(ctrls[c], x, y) else ctrls[c]
  }

  /** The display the pointer-display callback should report: the bound
      display of the mouse controller of the default mouse display, or none. */
  function MouseDisplayToNotify(ctrls: Directory, defaultMouseDisplayId: DisplayId): DisplayId {
    var ctx := Context(MouseController, defaultMouseDisplayId);
    if ctx in ctrls then ctrls[ctx].displayId else ADISPLAY_ID_NONE
  }

  // --- Reconciliation ---

  /** Reconciliation creates nothing, changes no kept controller, keeps a
      controller exactly when its context is still warranted, and leaves a
      well-formed, fully warranted directory. */
  lemma ReconcileOnlyReleases(ctrls: Directory, created: seq<ControllerType>, devices: seq<DeviceInfo>, s: Settings,
                              viewports: seq<Viewport>)
    requires WellFormed(ctrls, created)
    ensures var after := Reconciled(ctrls, devices, s);
      && WellFormed(after, created)
      && AllWarranted(after, devices, s)
      && (BoundToViewports(ctrls, viewports) ==> BoundToViewports(after, viewports))
      && LiveIds(after) <= LiveIds(ctrls)
      && Released(ctrls, created) <= Released(after, created)
      && (forall c :: c in after ==> after[c] == ctrls[c])
      && (forall c :: c in ctrls ==> (c in after <==> Warranted(devices, s, c)))
  {
    var after := Reconciled(ctrls, devices, s);
    assert LiveIds(after) <= LiveIds(ctrls) by {
      forall id | id in LiveIds(after) ensures id in LiveIds(ctrls) {
        var c :| c in after && after[c].id == id;
        assert c in ctrls;
      }
    }
  }

  /** A device table without the devices of context `c` releases its
      controller: the last device of a context takes the controller with it. */
  lemma RemovingLastDeviceReleases(ctrls: Directory, devices: seq<DeviceInfo>, s: Settings, c: Context)
    requires forall i :: 0 <= i < |devices| ==> !Warrants(devices[i], s, c)
    ensures c !in Reconciled(ctrls, devices, s)
  {
  }

  /** Turning show touches off releases every touch controller, turning the
      stylus icon off every stylus controller, whatever devices remain. */
  lemma TogglesOffRelease(ctrls: Directory, devices: seq<DeviceInfo>, s: Settings)
    ensures !s.showTouchesEnabled ==>
      forall c :: c in Reconciled(ctrls, devices, s) ==> c.kind != TouchController
    ensures !s.stylusPointerIconEnabled ==>
      forall c :: c in Reconciled(ctrls, devices, s) ==> c.kind != StylusController
  {
    forall c | c in Reconciled(ctrls, devices, s)
      ensures !s.showTouchesEnabled ==> c.kind != TouchController
      ensures !s.stylusPointerIconEnabled ==> c.kind != StylusController
    {
      var i :| 0 <= i < |devices| && Warrants(devices[i], s, c);
    }
  }

  /** Moving the default mouse display away from `D` releases the mouse
      controller of `D` unless some mouse is associated with `D` itself; if
      the new default display has no mouse controller yet, the callback is
      due to report no display. */
  lemma DefaultDisplayChangeReleasesMouse(ctrls: Directory, devices: seq<DeviceInfo>, s: Settings, newDefault: DisplayId)
    requires newDefault != s.defaultMouseDisplayId
    requires forall i :: 0 <= i < |devices| && IsMouseDevice(devices[i]) ==>
               devices[i].associatedDisplayId != s.defaultMouseDisplayId
    requires Context(MouseController, newDefault) !in ctrls
    ensures var after := Reconciled(ctrls, devices, s.(defaultMouseDisplayId := newDefault));
      && Context(MouseController, s.defaultMouseDisplayId) !in after
      && MouseDisplayToNotify(after, newDefault) == ADISPLAY_ID_NONE
  {
    var s' := s.(defaultMouseDisplayId := newDefault);
    var previous := Context(MouseController, s.defaultMouseDisplayId);
    forall i | 0 <= i < |devices|
      ensures !Warrants(devices[i], s', previous)
    {
      if IsMouseDevice(devices[i]) {
        assert devices[i].associatedDisplayId != s.defaultMouseDisplayId;
      }
    }
  }

  // --- Viewports ---

  /** A new viewport list releases and creates nothing, binds exactly the
      controllers whose display it contains and leaves every other field of
      every controller alone. */
  lemma ReboundBinds(ctrls: Directory, created: seq<ControllerType>, devices: seq<DeviceInfo>, s: Settings,
                     viewports: seq<Viewport>)
    requires WellFormed(ctrls, created) && AllWarranted(ctrls, devices, s)
    requires forall c :: c in ctrls ==> ctrls[c].displayId == ADISPLAY_ID_NONE || ctrls[c].displayId == c.displayId
    ensures var after := Rebound(ctrls, viewports);
      && after.Keys == ctrls.Keys
      && WellFormed(after, created) && AllWarranted(after, devices, s)
      && BoundToViewports(after, viewports)
      && LiveIds(after) == LiveIds(ctrls)
      && (forall c :: c in after ==>
            after[c] == ctrls[c].(displayId := if HasViewport(viewports, c.displayId) then c.displayId else ctrls[c].displayId))
  {
    var after := Rebound(ctrls, viewports);
    assert LiveIds(after) == LiveIds(ctrls) by {
      forall id | id in LiveIds(ctrls) ensures id in LiveIds(after) {
        var c :| c in ctrls && ctrls[c].id == id;
        assert after[c].id == id;
      }
      forall id | id in LiveIds(after) ensures id in LiveIds(ctrls) {
        var c :| c in after && after[c].id == id;
        assert ctrls[c].id == id;
      }
    }
  }

  // --- Motion ---

  /** A motion event creates at most one controller, for its own context and
      only on a creating action; the new controller has the next id and
      starts from the factory's hidden state; every other context keeps its
      controller untouched. */
  lemma MotionCreatesLazily(ctrls: Directory, nextId: nat, viewports: seq<Viewport>, r: MotionRoute, m: MotionArgs)
    requires Fits(r, m)
    ensures var after := ControllersAfterMotion(ctrls, nextId, viewports, r, m);
      && after.Keys == ctrls.Keys + (if CreatesController(ctrls, r, m) then {r.ctx} else {})
      && (forall c :: c in ctrls && (r.PassThrough? || c != r.ctx) ==> after[c] == ctrls[c])
      && (CreatesController(ctrls, r, m) ==>
            && FreshController(nextId, r.ctx, viewports).id == nextId
            && !FreshController(nextId, r.ctx, viewports).shown
            && after[r.ctx] == Handled(FreshController(nextId, r.ctx, viewports), r.ctx, m))
  {
  }

  /** Putting a controller with the kind of its context into the directory,
      either replacing a controller by an update of itself or adding the
      factory's next controller, keeps the directory well-formed and keeps
      every released controller released. */
  lemma PutKeepsWellFormed(ctrls: Directory, created: seq<ControllerType>, ctx: Context, pc: PointerController,
                           isNew: bool)
    requires WellFormed(ctrls, created)
    requires pc.kind == ctx.kind
    requires isNew ==> ctx !in ctrls && pc.id == |created|
    requires !isNew ==> ctx in ctrls && pc.id == ctrls[ctx].id
    ensures var created' := if isNew then created + [ctx.kind] else created;
      && WellFormed(ctrls[ctx := pc], created')
      && Released(ctrls, created) <= Released(ctrls[ctx := pc], created')
  {
    var created' := if isNew then created + [ctx.kind] else created;
    var after := ctrls[ctx := pc];
    forall c | c in after
      ensures after[c].kind == c.kind && after[c].id < |created'| && created'[after[c].id] == c.kind
    {
      if c != ctx {
        assert created'[ctrls[c].id] == created[ctrls[c].id];
      }
    }
    forall i | i in Released(ctrls, created)
      ensures i in Released(after, created')
    {
      forall c | c in after
        ensures after[c].id != i
      {
        if c != ctx || !isNew {
          assert ctrls[c].id in LiveIds(ctrls);
        }
      }
    }
  }

  /** A motion event keeps the directory well-formed, warranted and bound,
      and a released controller never comes back. */
  lemma MotionKeepsDirectoryValid(ctrls: Directory, created: seq<ControllerType>, devices: seq<DeviceInfo>,
                                  s: Settings, viewports: seq<Viewport>, m: MotionArgs)
    requires WellFormed(ctrls, created) && AllWarranted(ctrls, devices, s) && BoundToViewports(ctrls, viewports)
    ensures var r := RouteMotion(devices, s, m);
      var created' := created + (if CreatesController(ctrls, r, m) then [r.ctx.kind] else []);
      var after := ControllersAfterMotion(ctrls, |created|, viewports, r, m);
      && WellFormed(after, created')
      && AllWarranted(after, devices, s)
      && BoundToViewports(after, viewports)
      && Released(ctrls, created) <= Released(after, created')
  {
    var r := RouteMotion(devices, s, m);
    var creates := CreatesController(ctrls, r, m);
    if r.Routed? && (r.ctx in ctrls || creates) {
      var ctx := r.ctx;
      var base := if creates then FreshController(|created|, ctx, viewports) else ctrls[ctx];
      var pc := Handled(base, ctx, m);
      assert ControllersAfterMotion(ctrls, |created|, viewports, r, m) == ctrls[ctx := pc];
      assert created + (if creates then [ctx.kind] else []) == if creates then created + [ctx.kind] else created;
      PutKeepsWellFormed(ctrls, created, ctx, pc, creates);
    }
  }

  /** A mouse event moves its pointer by the event's relative axes, shows
      it, and leaves downstream with the new position as coordinates and as
      cursor position, on the mouse's display; no other pointer moves. */
  lemma MouseMotionAccumulates(ctrls: Directory, nextId: nat, viewports: seq<Viewport>, r: MotionRoute, m: MotionArgs)
    requires r.Routed? && r.ctx.kind == MouseController && |m.pointers| > 0
    requires r.ctx in ctrls
    ensures var after := ControllersAfterMotion(ctrls, nextId, viewports, r, m);
      var pc := after[r.ctx];
      var out := ForwardedMotion(r, m, after);
      && pc.x == ctrls[r.ctx].x + m.pointers[0].relativeX
      && pc.y == ctrls[r.ctx].y + m.pointers[0].relativeY
      && pc.shown
      && pc.displayId == ctrls[r.ctx].displayId
      && out.pointers[0].x == pc.x && out.pointers[0].y == pc.y
      && out.cursorPosition == CursorAt(pc.x, pc.y)
      && out.displayId == r.ctx.displayId
      && out.action == m.action && out.deviceId == m.deviceId
      && (forall c :: c in ctrls && c != r.ctx ==> after[c] == ctrls[c])
  {
  }

  /** A stylus hover sets the absolute position and shows the pointer; a
      hover exit hides it and keeps the controller. */
  lemma StylusHoverPlacesPointer(ctrls: Directory, nextId: nat, viewports: seq<Viewport>, r: MotionRoute, m: MotionArgs)
    requires r.Routed? && r.ctx.kind == StylusController && |m.pointers| > 0
    requires r.ctx in ctrls
    ensures var after := ControllersAfterMotion(ctrls, nextId, viewports, r, m);
      && r.ctx in after
      && (m.action == HoverExit ==> !after[r.ctx].shown && after[r.ctx].x == ctrls[r.ctx].x && after[r.ctx].y == ctrls[r.ctx].y)
      && (m.action != HoverExit ==> after[r.ctx].shown && after[r.ctx].x == m.pointers[0].x && after[r.ctx].y == m.pointers[0].y)
      && ForwardedMotion(r, m, after) == m
  {
  }

  /** A touch event rewrites only its own display's bucket of its own
      controller; an UP leaves that bucket present and empty. */
  lemma TouchSetsOwnBucket(ctrls: Directory, nextId: nat, viewports: seq<Viewport>, r: MotionRoute, m: MotionArgs)
    requires r.Routed? && r.ctx.kind == TouchController
    requires r.ctx in ctrls || CreationTrigger(TouchController, m.action)
    ensures var after := ControllersAfterMotion(ctrls, nextId, viewports, r, m);
      && r.ctx in after
      && after[r.ctx].spots == (if r.ctx in ctrls then ctrls[r.ctx].spots else map[])[r.ctx.displayId := SpotsAfter(m.action, m.pointers)]
      && (m.action == Up ==> r.ctx.displayId in after[r.ctx].spots && after[r.ctx].spots[r.ctx.displayId] == {})
      && (forall c :: c in ctrls && c != r.ctx ==> after[c] == ctrls[c])
  {
  }

  /** Every controller's spot buckets are its own: a touch controller holds
      at most the bucket of the display it serves, the others hold none. */
  ghost predicate OwnBuckets(ctrls: Directory) {
    forall c :: c in ctrls ==>
      ctrls[c].spots.Keys <= (if c.kind == TouchController then {c.displayId} else {})
  }

  /** Motion events, creations included, keep every bucket with its own
      controller. */
  lemma MotionKeepsOwnBuckets(ctrls: Directory, nextId: nat, viewports: seq<Viewport>, r: MotionRoute, m: MotionArgs)
    requires Fits(r, m)
    requires OwnBuckets(ctrls)
    ensures OwnBuckets(ControllersAfterMotion(ctrls, nextId, viewports, r, m))
  {
  }

  /** A change that keeps every context and only drops buckets keeps every
      bucket with its own controller. */
  lemma FewerBucketsKeepOwnBuckets(ctrls: Directory, after: Directory)
    requires OwnBuckets(ctrls)
    requires after.Keys == ctrls.Keys
    requires forall c :: c in ctrls ==> after[c].spots.Keys <= ctrls[c].spots.Keys
    ensures OwnBuckets(after)
  {
  }

  // --- Device reset and capture ---

  /** A device reset creates and releases nothing. It clears the spots of
      the touch controller of a touch device's display, keeping its position
      and visibility, and hides the stylus pointer of a stylus device's
      display, keeping its position and spots. Every other controller is
      left as it was. A touch controller whose buckets are all its own
      display's loses exactly that display's bucket. */
  lemma ResetClearsSpotsAndFades(ctrls: Directory, devices: seq<DeviceInfo>, deviceId: DeviceId, i: nat)
    requires FindDeviceIndex(devices, deviceId) == Some(i)
    ensures var after := ControllersAfterReset(ctrls, devices, deviceId);
      var d := devices[i];
      var touch := Context(TouchController, d.associatedDisplayId);
      var stylus := Context(StylusController, d.associatedDisplayId);
      && SameControllers(ctrls, after)
      && (forall c :: c in ctrls ==>
            after[c] == ctrls[c].(spots := after[c].spots, shown := after[c].shown))
      && (forall c :: c in ctrls && !(c == touch && Touchscreen in d.sources) && !(c == stylus && Stylus in d.sources) ==>
            after[c] == ctrls[c])
      && (Touchscreen in d.sources && touch in ctrls ==>
            && after[touch].spots == map[]
            && after[touch].shown == ctrls[touch].shown)
      && (Touchscreen in d.sources && touch in ctrls && ctrls[touch].spots.Keys <= {d.associatedDisplayId} ==>
            after[touch].spots == ctrls[touch].spots - {d.associatedDisplayId})
      && (Stylus in d.sources && stylus in ctrls ==>
            && !after[stylus].shown
            && after[stylus].spots == ctrls[stylus].spots)
  {
  }

  /** `after` holds the same controllers as `ctrls`, each with the same
      identity, kind and bound display; only presentation (position,
      visibility, spots) may differ. */
  ghost predicate SameControllers(ctrls: Directory, after: Directory) {
    && after.Keys == ctrls.Keys
    && forall c :: c in ctrls ==>
         after[c].id == ctrls[c].id && after[c].kind == ctrls[c].kind && after[c].displayId == ctrls[c].displayId
  }

  /** A presentation-only change keeps every directory invariant, releases
      nothing and does not change the display due to be reported. */
  lemma PresentationKeepsDirectory(ctrls: Directory, after: Directory, created: seq<ControllerType>,
                                   devices: seq<DeviceInfo>, s: Settings, viewports: seq<Viewport>)
    requires SameControllers(ctrls, after)
    ensures WellFormed(ctrls, created) ==> WellFormed(after, created)
    ensures AllWarranted(ctrls, devices, s) ==> AllWarranted(after, devices, s)
    ensures BoundToViewports(ctrls, viewports) ==> BoundToViewports(after, viewports)
    ensures LiveIds(after) == LiveIds(ctrls) && Released(after, created) == Released(ctrls, created)
    ensures MouseDisplayToNotify(after, s.defaultMouseDisplayId) == MouseDisplayToNotify(ctrls, s.defaultMouseDisplayId)
  {
    forall id | id in LiveIds(ctrls) ensures id in LiveIds(after) {
      var c :| c in ctrls && ctrls[c].id == id;
      assert after[c].id == id;
    }
    forall id | id in LiveIds(after) ensures id in LiveIds(ctrls) {
      var c :| c in after && after[c].id == id;
      assert ctrls[c].id == id;
    }
  }

  /** Turning capture on hides every mouse pointer and nothing else changes. */
  lemma CaptureFadesMice(ctrls: Directory)
    ensures var after := MiceFaded(ctrls);
      && SameControllers(ctrls, after)
      && (forall c :: c in after && c.kind == MouseController ==> !after[c].shown)
      && (forall c :: c in after && c.kind != MouseController ==> after[c] == ctrls[c])
      && (forall c :: c in after ==> after[c].x == ctrls[c].x && after[c].y == ctrls[c].y)
  {
  }

  /** Moving one controller by identity moves it, and only it, to (x, y). */
  lemma PositionSetMovesOne(ctrls: Directory, id: nat, x: int, y: int)
    ensures var after := PositionSet(ctrls, id, x, y);
      && SameControllers(ctrls, after)
      && (forall c :: c in after && ctrls[c].id == id ==> after[c].x == x && after[c].y == y)
      && (forall c :: c in after && ctrls[c].id != id ==> after[c] == ctrls[c])
      && (forall c :: c in after ==> after[c].shown == ctrls[c].shown && after[c].spots == ctrls[c].spots)
  {
  }

  // --- Display-change notification ---

  /** The last display reported, ADISPLAY_ID_NONE before any report. */
  function LastNotified(log: seq<DisplayId>): DisplayId {
    if |log| == 0 then ADISPLAY_ID_NONE else log[|log| - 1]
  }

  /** No report repeats the one before it, and the first is not NONE. */
  ghost predicate NoRepeats(log: seq<DisplayId>) {
    && (|log| > 0 ==> log[0] != ADISPLAY_ID_NONE)
    && (forall i, j :: 0 <= i && j == i + 1 && j < |log| ==> log[i] != log[j])
  }

  /** The callback fires only when the display to report differs from the
      last one reported: the reports stay free of repeats, end with the
      current display, and grow by at most one. */
  function Notified(log: seq<DisplayId>, v: DisplayId): (r: seq<DisplayId>)
    ensures NoRepeats(log) ==> NoRepeats(r)
    ensures LastNotified(r) == v
    ensures r == log || r == log + [v]
    ensures r == log <==> v == LastNotified(log)
  {
    if v == LastNotified(log) then log
    else
      AppendKeepsNoRepeats(log, v);
      log + [v]
  }

  lemma AppendKeepsNoRepeats(log: seq<DisplayId>, v: DisplayId)
    requires v != LastNotified(log)
    ensures NoRepeats(log) ==> NoRepeats(log + [v])
  {
    var r := log + [v];
    if NoRepeats(log) {
      forall i, j | 0 <= i && j == i + 1 && j < |r|
        ensures r[i] != r[j]
      {
        if j < |log| {
          assert r[i] == log[i] && r[j] == log[j];
        } else {
          assert r[j] == v && r[i] == log[|log| - 1];
        }
      }
      if |log| > 0 {
        assert r[0] == log[0];
      }
    }
  }
}
