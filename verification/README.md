# Pointer choreographer

A model of Android's input-pipeline pointer choreographer, as its gtest suite
`services/inputflinger/tests/PointerChoreographer_test.cpp` fixes its
behaviour. The choreographer sits between the input reader and the
dispatcher. It keeps:

- the device table;
- the display viewports;
- the default mouse display and the show-touches, stylus-icon and
  pointer-capture flags;
- a directory of pointer controllers, keyed by context: the kind of
  controller (mouse, touch, stylus) and the display it serves.

Controllers come from the policy's factory. The choreographer creates them
lazily, on the first motion event that needs one. It releases them as soon
as no device warrants their context any more. It calls the policy back when
the display of the pointer on the default mouse display changes, and forwards every notification
downstream, with mouse motion rewritten to absolute coordinates.

The choreographer is a class, `Choreographer.PointerChoreographer`, whose
methods update its fields in place. Its invariant `Valid()` says six things:

- every controller serves the kind of its context and came from the factory;
- no controller serves two contexts;
- every context in the directory is warranted by some device;
- every controller is bound to its own display once that display has a
  viewport, and never to another display;
- the last display reported to the policy is the one due now;
- a touch controller holds spots for its own display only, and no other
  controller holds spots.

The collaborators' observations are fields too:

- `created`: the controller kinds the factory handed out. A controller's
  identity is its index in this log.
- `displayIdNotifications`: the displays the policy's callback received.
- `forwarded`: the notifications the next listener received.

A controller is *released* when it was created but the directory no longer
holds it (`ReleasedControllers`). A released controller never comes back.

The directory's transitions are functions on values, in module
`ControllerDirectory`, with lemmas about each. Routing (which context a device
or an event belongs to) is in `Routing`. The touch-spot rule is in
`TouchSpots`.

Module `Scenarios` replays these test cases as chains of calls on the class:
the ones starting at lines 137, 184, 190, 202, 218, 225, 243, 328, 345, 364, 398, 489, 538,
641, 660, 787, 940, 965 and 1059. Each step states all the state but the
forwarded notifications and the capture flag, before and after, so every
observation the test makes follows from the class's contracts alone. The
test cases at lines 433, 717, 737 and 1001 are stated as lemmas on the
directory functions, from a given directory. The remaining test cases are covered by the contracts the table
cites, not replayed call by call.

Three behaviours the tests fix, stated here because they are easy to misread:

- **Touch spots.** A touch event's spot bucket for its display is rebuilt
  from the event's own pointers. The bucket holds every pointer of the event,
  except the one leaving on POINTER_UP, and is empty after UP or CANCEL. The
  test at lines 766-779 sends POINTER_DOWN with action index 0 and expects
  two spots, so the bucket is not grown one spot per action.
- **First report.** The last reported display starts as ADISPLAY_ID_NONE.
  Lines 328-343 expect no callback while the mouse controller is still
  unbound.
- **Relative mouse.** A device with only the MOUSE_RELATIVE source still
  keeps the mouse controller alive. Lines 506-529 go on using the controller
  after the device turns relative. A MOUSE_RELATIVE event is never routed to
  a controller.

## Model

| member | source | states |
|---|---|---|
| `Choreographer.PointerChoreographer.constructor` | services/inputflinger/tests/PointerChoreographer_test.cpp:81-84 | starts valid with no devices, viewports or controllers, no default display, every flag off, and nothing created, reported or forwarded |
| `Choreographer.PointerChoreographer.NotifyPointerDisplayIdChanged` | services/inputflinger/tests/PointerChoreographer_test.cpp:312-396 | the callback log grows by the display due exactly when it differs from the last one reported, and the last reported display becomes the one due |
| `Choreographer.PointerChoreographer.UpdatePointerControllers` | services/inputflinger/tests/PointerChoreographer_test.cpp:202-216 | keeps exactly the warranted controllers, unchanged; restores `Valid()`; reports the pointer display if it changed; released controllers stay released |
| `Choreographer.PointerChoreographer.NotifyInputDevicesChanged` | services/inputflinger/tests/PointerChoreographer_test.cpp:184-223 | installs the new device table, creates no controller, releases the ones no device warrants, reports a display change, forwards the notification once |
| `Choreographer.PointerChoreographer.SetDisplayViewports` | services/inputflinger/tests/PointerChoreographer_test.cpp:225-260 | binds exactly the controllers whose display gains a viewport; creates and releases nothing; reports the display once the mouse controller is bound |
| `Choreographer.PointerChoreographer.SetDefaultMouseDisplayId` | services/inputflinger/tests/PointerChoreographer_test.cpp:262-310 | a new default display releases the mouse controller of the old one, unless a mouse is associated with it, creates nothing, and reports the change |
| `Choreographer.PointerChoreographer.SetShowTouchesEnabled` | services/inputflinger/tests/PointerChoreographer_test.cpp:575-658 | records the flag, creates nothing, and releases every touch controller the flag no longer warrants |
| `Choreographer.PointerChoreographer.SetStylusPointerIconEnabled` | services/inputflinger/tests/PointerChoreographer_test.cpp:876-893 | records the flag, creates nothing, and releases every stylus controller the flag no longer warrants |
| `Choreographer.PointerChoreographer.NotifyMotion` | services/inputflinger/tests/PointerChoreographer_test.cpp:398-431 | routes the event; creates at most one controller, for its own context; lets that controller handle the event; forwards the event rewritten for a mouse; reports the pointer display; keeps `Valid()` |
| `Choreographer.PointerChoreographer.ApplyMotion` | services/inputflinger/tests/PointerChoreographer_test.cpp:122-130 | at most one controller is created, for the routed context only, with the factory's next id and kind, and only on a creating action; every other controller is left as it was; an existing controller keeps its identity and binding |
| `Choreographer.PointerChoreographer.HandleMotion` | services/inputflinger/tests/PointerChoreographer_test.cpp:965-999 | a mouse moves by the relative axes and shows; a stylus hover moves to the event's position and shows, a hover exit hides in place; a touch event replaces only its display's bucket with the spots still down, keeping position and visibility; identity and binding never change |
| `Choreographer.PointerChoreographer.NotifyDeviceReset` | services/inputflinger/tests/PointerChoreographer_test.cpp:787-807 | clears the spots of the device's touch controller, which loses exactly its display's bucket, and hides its stylus pointer; creates, releases and reports nothing; forwards the reset |
| `Choreographer.PointerChoreographer.NotifyPointerCaptureChanged` | services/inputflinger/tests/PointerChoreographer_test.cpp:538-573 | records the capture flag; turning capture on hides every mouse pointer and changes nothing else |
| `Choreographer.PointerChoreographer.Notify` | services/inputflinger/tests/PointerChoreographer_test.cpp:137-182 | every notification reaches the next listener exactly once and keeps its kind, anything but motion unchanged; a device change installs the table and reconciles, a motion applies its route and forwards the rewritten event, a reset clears and fades, a capture change records the flag and hides the mice; key, configuration, sensor, switch and vibrator notifications change no device, viewport, setting, controller, creation or report |
| `Choreographer.PointerChoreographer.SetControllerPosition` | services/inputflinger/tests/PointerChoreographer_test.cpp:465-466 | the holder of a controller moves it, and only it, to (x, y); the directory stays valid and nothing is released |
| `ControllerDirectory.Notified` | services/inputflinger/tests/PointerChoreographer_test.cpp:345-362 | the report log grows by the new display exactly when it differs from the last report, never repeats a report, and ends with the display due |
| `ControllerDirectory.ReconcileOnlyReleases` | services/inputflinger/tests/PointerChoreographer_test.cpp:97-108 | reconciliation keeps a controller exactly when its context is still warranted, changes none it keeps, creates none, and every released controller stays released |
| `ControllerDirectory.RemovingLastDeviceReleases` | services/inputflinger/tests/PointerChoreographer_test.cpp:622-639 | once no device warrants a context its controller is gone |
| `ControllerDirectory.TogglesOffRelease` | services/inputflinger/tests/PointerChoreographer_test.cpp:641-658 | with show touches off no touch controller survives; with the stylus icon off no stylus controller survives |
| `ControllerDirectory.DefaultDisplayChangeReleasesMouse` | services/inputflinger/tests/PointerChoreographer_test.cpp:280-310 | a new default display releases the old display's mouse controller when no mouse is associated with the old display, whatever other devices are, and the display due to be reported is none until the next mouse event |
| `ControllerDirectory.ReboundBinds` | services/inputflinger/tests/PointerChoreographer_test.cpp:895-963 | new viewports bind exactly the controllers of the displays they contain, change nothing else, keep every controller, and leave the directory bound |
| `ControllerDirectory.MotionCreatesLazily` | services/inputflinger/tests/PointerChoreographer_test.cpp:809-855 | a motion adds at most its own context, only on a creating action; the new controller has the next id and starts hidden; no other entry changes |
| `ControllerDirectory.MotionKeepsDirectoryValid` | services/inputflinger/tests/PointerChoreographer_test.cpp:122-130 | after a motion event the directory is well formed, warranted and bound, and no released controller has come back |
| `ControllerDirectory.MouseMotionAccumulates` | services/inputflinger/tests/PointerChoreographer_test.cpp:433-487 | a mouse event adds its relative axes to its own pointer, shows it, and leaves with the new position as coordinates and cursor position on the mouse's display; other pointers do not move |
| `ControllerDirectory.StylusHoverPlacesPointer` | services/inputflinger/tests/PointerChoreographer_test.cpp:1001-1057 | a hover sets the absolute position and shows; a hover exit hides and keeps the position; the event leaves unchanged |
| `ControllerDirectory.TouchSetsOwnBucket` | services/inputflinger/tests/PointerChoreographer_test.cpp:737-785 | a touch event rewrites only its own display's bucket of its own controller; after UP the bucket is present and empty; other controllers are untouched |
| `ControllerDirectory.ResetClearsSpotsAndFades` | services/inputflinger/tests/PointerChoreographer_test.cpp:1059-1077 | a reset keeps every controller; the touch controller of a touch device's display loses its spots and keeps position and visibility; the stylus pointer of a stylus device's display is hidden and keeps its spots; every other controller is unchanged; a touch controller holding only its own display's bucket loses exactly that bucket |
| `ControllerDirectory.PresentationKeepsDirectory` | services/inputflinger/tests/PointerChoreographer_test.cpp:97-108 | changing only position, visibility or spots keeps every directory invariant, releases nothing and leaves the display due unchanged |
| `ControllerDirectory.CaptureFadesMice` | services/inputflinger/tests/PointerChoreographer_test.cpp:568-572 | capture on hides every mouse pointer in place and leaves every other controller as it was |
| `ControllerDirectory.PositionSetMovesOne` | services/inputflinger/tests/PointerChoreographer_test.cpp:465-481 | moving one controller by identity moves it alone; the others keep position, visibility and spots |
| `Routing.RouteMotion` | services/inputflinger/tests/PointerChoreographer_test.cpp:489-536 | an event of a known device goes to that device's context of the event's kind (an associated mouse to its display, an unassociated one to the default mouse display, a stylus hover or touch to the device's display) exactly when the device warrants that context; mouse events need pointers, stylus hovers the icon setting, touches show touches; events of unknown devices and everything else, MOUSE_RELATIVE included, pass through |
| `ControllerDirectory.MotionKeepsOwnBuckets` | services/inputflinger/tests/PointerChoreographer_test.cpp:737-785 | motion events keep every spot bucket with its own controller: a touch controller holds at most its display's bucket, other controllers none |
| `TouchSpots.ComputeSpotIds` | services/inputflinger/tests/PointerChoreographer_test.cpp:660-715 | gathers, pointer by pointer, the ids of the pointers still down after the action |
| `TouchSpots.PointerUpRemovesItsSpot` | services/inputflinger/tests/PointerChoreographer_test.cpp:690-702 | with distinct pointer ids, POINTER_UP removes exactly the leaving pointer's spot |
| `TouchSpots.DownKeepsEverySpot` | services/inputflinger/tests/PointerChoreographer_test.cpp:766-779 | a down, pointer down or move keeps a spot for every pointer: as many spots as pointers |
| `TouchSpots.GestureEndClearsSpots` | services/inputflinger/tests/PointerChoreographer_test.cpp:704-714 | UP and CANCEL leave the bucket empty |
| `TestFixture.CreateViewports` | services/inputflinger/tests/PointerChoreographer_test.cpp:65-75 | one full-size viewport per display id, in order; exactly the listed displays have a viewport |
| `Scenarios.ForwardsArgsToInnerListener` | services/inputflinger/tests/PointerChoreographer_test.cpp:137-182 | asserts that the nine notifications, dispatched in turn, reach the next listener one for one and in kind |
| `Scenarios.KeyboardGetsNoController` | services/inputflinger/tests/PointerChoreographer_test.cpp:218-223 | asserts that a keyboard and its events create no controller |
| `Scenarios.MouseControllerLifecycle` | services/inputflinger/tests/PointerChoreographer_test.cpp:345-362 | asserts that adding a mouse creates nothing, its first event creates and reports, and removing it releases and reports no display |
| `Scenarios.WhenViewportIsSetLaterBindsAndNotifies` | services/inputflinger/tests/PointerChoreographer_test.cpp:328-343 | asserts that the controller stays unbound and unreported until the viewport arrives, then is bound and reported |
| `Scenarios.DefaultMouseDisplayChangeNotifies` | services/inputflinger/tests/PointerChoreographer_test.cpp:364-396 | asserts the reports DISPLAY_ID, none, ANOTHER_DISPLAY_ID, the release of the first controller and the creation of a second one |
| `Scenarios.MouseMovesPointerAndReturnsNewArgs` | services/inputflinger/tests/PointerChoreographer_test.cpp:398-431 | asserts the pointer at (110, 220), shown, and the forwarded coordinates, display and cursor position |
| `Scenarios.DoesNotMovePointerForMouseRelativeSource` | services/inputflinger/tests/PointerChoreographer_test.cpp:489-536 | asserts that under capture the pointer stays at (100, 200), hidden, and the relative event leaves unchanged |
| `Scenarios.WhenPointerCaptureEnabledHidesPointer` | services/inputflinger/tests/PointerChoreographer_test.cpp:538-573 | asserts the pointer moved to (110, 220) and shown, then hidden once capture is on |
| `Scenarios.TouchSetsSpots` | services/inputflinger/tests/PointerChoreographer_test.cpp:660-715 | asserts one touch controller for the gesture and an empty, present bucket after UP |
| `Scenarios.WhenTouchDeviceIsResetClearsSpots` | services/inputflinger/tests/PointerChoreographer_test.cpp:787-807 | asserts the display's bucket present after DOWN and gone after the reset |
| `Scenarios.WhenShowTouchesDisabledRemovesPointerController` | services/inputflinger/tests/PointerChoreographer_test.cpp:641-658 | asserts the touch controller released once show touches is off |
| `Scenarios.StylusHoverManipulatesPointer` | services/inputflinger/tests/PointerChoreographer_test.cpp:965-999 | asserts the stylus pointer at (150, 250) and shown after a hover move, hidden after the hover exit |
| `Scenarios.WhenViewportDoesNotMatchDoesNotSetViewportForStylusPointerController` | services/inputflinger/tests/PointerChoreographer_test.cpp:940-963 | asserts the stylus controller still unbound after a viewport for another display |
| `Scenarios.WhenStylusDeviceIsResetFadesPointer` | services/inputflinger/tests/PointerChoreographer_test.cpp:1059-1077 | asserts the stylus pointer shown, then hidden after the reset |
| `Scenarios.MouseWithoutDefaultDisplayLifecycle` | services/inputflinger/tests/PointerChoreographer_test.cpp:184-216 | asserts that, with no default display and no viewport, adding a mouse creates nothing, its first event creates a controller, and removing the mouse releases it |
| `Scenarios.MouseEventWithoutDefault` | services/inputflinger/tests/PointerChoreographer_test.cpp:190-200 | with no default mouse display and no viewport, the unassociated mouse's first event creates its controller, unbound, moved by (10, 20) and shown; nothing is reported |
| `Scenarios.UnboundMouseRemoved` | services/inputflinger/tests/PointerChoreographer_test.cpp:213-215 | removing that mouse releases its controller and reports nothing |
| `TestFixture.GenerateTestDeviceInfo` | services/inputflinger/tests/PointerChoreographer_test.cpp:54-63 | builds the device record from an id, the sources and the associated display |
| `Scenarios.SetsViewportForAssociatedMouse` | services/inputflinger/tests/PointerChoreographer_test.cpp:225-241 | asserts that adding the associated mouse creates nothing and its first event creates a controller bound to DISPLAY_ID |
| `Scenarios.WhenViewportSetLaterSetsViewportForAssociatedMouse` | services/inputflinger/tests/PointerChoreographer_test.cpp:243-260 | asserts that the associated mouse's controller is unbound without a viewport and bound to DISPLAY_ID once the viewport arrives |
| `Scenarios.FirstAssociatedMouseEvent` | services/inputflinger/tests/PointerChoreographer_test.cpp:245-253 | the first event of a mouse associated with DISPLAY_ID, with no default mouse display, creates its controller on DISPLAY_ID, bound if that display has a viewport, moved by (10, 20) and shown; nothing is reported |
| `Scenarios.AssociatedMouseViewportArrives` | services/inputflinger/tests/PointerChoreographer_test.cpp:257-259 | a viewport arriving later binds the associated mouse's controller to DISPLAY_ID |
| `Scenarios.TwoMiceGetTheirOwnControllers` | services/inputflinger/tests/PointerChoreographer_test.cpp:433-462 | the unassociated mouse's event goes to the default display; the associated mouse's event goes to ANOTHER_DISPLAY_ID and creates a controller there, bound |
| `Scenarios.AssociatedMouseMovesOnlyItsPointer` | services/inputflinger/tests/PointerChoreographer_test.cpp:464-486 | the associated mouse moves its pointer from (300, 400) to (310, 420), shown, on ANOTHER_DISPLAY_ID; the other pointer stays; the event leaves with (310, 420), its device and its display |
| `Scenarios.StylusDownIsTouch` | services/inputflinger/tests/PointerChoreographer_test.cpp:717-735 | a DOWN from a touchscreen-and-stylus device goes to the touch context, creates the touch controller and leaves one spot on the display |
| `Scenarios.TwoTouchscreensKeepSeparateSpots` | services/inputflinger/tests/PointerChoreographer_test.cpp:737-785 | the second touchscreen's DOWN creates its own controller, its POINTER_DOWN gives its display two spots, and the first display's controller is unchanged |
| `Scenarios.TwoStylusesHoverIndependently` | services/inputflinger/tests/PointerChoreographer_test.cpp:1001-1057 | each stylus's hover goes to its own display's controller: the first pointer ends at (150, 250), the second at (250, 350), both shown |
| `Scenarios.FirstMouseEvent` | services/inputflinger/tests/PointerChoreographer_test.cpp:312-326 | the first mouse event creates the mouse controller on the default display, bound if that display has a viewport, moved by (10, 20) and shown; the display is reported once bound |
| `Scenarios.MouseRemoved` | services/inputflinger/tests/PointerChoreographer_test.cpp:345-362 | removing the mouse releases its controller and reports no display |
| `Scenarios.MouseViewportArrives` | services/inputflinger/tests/PointerChoreographer_test.cpp:328-343 | a viewport arriving later binds the controller and reports its display |
| `Scenarios.DefaultDisplayMoved` | services/inputflinger/tests/PointerChoreographer_test.cpp:364-384 | moving the default display releases the mouse controller and reports no display |
| `Scenarios.MouseEventOnNewDefault` | services/inputflinger/tests/PointerChoreographer_test.cpp:386-396 | the next mouse event creates a second controller on the new default display, bound, and reports that display |
| `Scenarios.NewDefaultGetsSecondController` | services/inputflinger/tests/PointerChoreographer_test.cpp:300-309 | the event is routed to the new default display and creates there the factory's second controller, bound, moved and shown |
| `Scenarios.MousePlaced` | services/inputflinger/tests/PointerChoreographer_test.cpp:414 | the holder of the mouse controller puts the pointer at (100, 200) |
| `Scenarios.MouseMovesPointer` | services/inputflinger/tests/PointerChoreographer_test.cpp:416-430 | the pointer moves to (110, 220) and shows; the event leaves with that position as coordinates and cursor position, on DISPLAY_ID |
| `Scenarios.MouseBecomesRelative` | services/inputflinger/tests/PointerChoreographer_test.cpp:507-509 | the mouse turning relative keeps its controller |
| `Scenarios.CaptureHidesPointer` | services/inputflinger/tests/PointerChoreographer_test.cpp:568-572 | capture on hides the mouse pointer where it is |
| `Scenarios.RelativeMotionPassesThrough` | services/inputflinger/tests/PointerChoreographer_test.cpp:514-535 | a relative event moves and shows nothing and leaves exactly as it came |
| `Scenarios.TouchEvent` | services/inputflinger/tests/PointerChoreographer_test.cpp:660-715 | one touch event creates the touch controller on DOWN or reuses it, and sets its display's spots to the event's spot set |
| `Scenarios.TwoFingerGestureSpots` | services/inputflinger/tests/PointerChoreographer_test.cpp:660-715 | the two-finger gesture leaves spots {0}, {0, 1}, {0}, then none |
| `Scenarios.TouchReset` | services/inputflinger/tests/PointerChoreographer_test.cpp:803-806 | resetting the touchscreen removes its display's bucket and keeps the controller |
| `Scenarios.ShowTouchesOff` | services/inputflinger/tests/PointerChoreographer_test.cpp:655-657 | show touches off releases the touch controller |
| `Scenarios.StylusEnter` | services/inputflinger/tests/PointerChoreographer_test.cpp:822-837 | hover enter creates the stylus controller, bound if the display has a viewport, and shows the pointer at the event's position |
| `Scenarios.StylusHover` | services/inputflinger/tests/PointerChoreographer_test.cpp:965-999 | hover move places and shows the pointer; hover exit hides it where it is |
| `Scenarios.StylusOtherViewport` | services/inputflinger/tests/PointerChoreographer_test.cpp:940-963 | a viewport for another display leaves the stylus controller unbound |
| `Scenarios.StylusReset` | services/inputflinger/tests/PointerChoreographer_test.cpp:1059-1077 | resetting the stylus hides its pointer and keeps its controller |

## Left out

- The implementation files `PointerChoreographer.h` and `PointerChoreographer.cpp` are not part of this model. The behaviour is the one the test suite fixes.
- Floating-point coordinates: positions are integers, as every value in the tests is.
- Clamping the mouse pointer to its viewport's bounds: no test asserts it.
- Rendering inside the pointer controller, and the pointer's position passed to the display callback. The callback log records the display only.
- Event timestamps, sequence numbers, device identifiers and aliases, generation and controller numbers, and tool types: none affects the asserted behaviour.
- Source and action bit masks: sources are a set of enumerators, and POINTER_DOWN/POINTER_UP carry their action index as a field.
- Reference counting of controllers: a controller counts as released once it was created and the directory, the only field that holds controllers, no longer holds it.
- Key, configuration, sensor, switch and vibrator notifications are only forwarded; no state changes on them.
- Spot coordinates: a spot is its pointer id only, since the tests check bucket sizes and presence.
- A controller keeps its binding when its display's viewport is later removed: no test removes a viewport.
- Several touch devices on one display: each event rebuilds its display's bucket from its own pointers, so a second device on the same display replaces the first device's spots rather than adding to them. No test covers that case.
- The gtest machinery (`std::visit`, the matchers) is replaced by postconditions and assertions.
- `Choreographer.PointerChoreographer.Notify`: for a motion notification it does not restate the factory log and the report, which `NotifyMotion` states in full.
- `ControllerDirectory.MouseDisplayToNotify`: only the pointer on the default mouse display is reported, so a mouse associated with another display is never reported, even once its controller is bound. No test fixes this case.
- `Routing.Warrants`: a touchscreen or stylus with no associated display warrants no controller, so its events go nowhere and leave no spots or stylus pointer. Every touch and stylus device in the tests is associated with a display, so no test fixes this case; the model keeps each touch and stylus controller tied to one display.
