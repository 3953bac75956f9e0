/** The values that flow into and out of the pointer choreographer: input
    devices, display viewports, motion events and the notification union. */
module InputTypes {

  datatype Option<+T> = None | Some(value: T)

  type DisplayId = int
  type DeviceId = int

  /** ADISPLAY_ID_NONE: "no display". */
  const ADISPLAY_ID_NONE: DisplayId := -1

  /** Input source classes. A device or an event carries a set of them
      where the source carries a bit mask. */
  datatype Source = Mouse | MouseRelative | Touchscreen | Stylus | Keyboard

  /** An input device as the choreographer sees it: its id, its sources and
      the display it is associated with (or ADISPLAY_ID_NONE). */
  datatype DeviceInfo = DeviceInfo(id: DeviceId, sources: set<Source>, associatedDisplayId: DisplayId)

  /** A display viewport: the display id and its logical bounds. */
  datatype Viewport = Viewport(displayId: DisplayId, logicalRight: int, logicalBottom: int)

  /** Motion actions. POINTER_DOWN and POINTER_UP carry the action index
      that the source packs into the upper bits of the action. */
  datatype Action =
    | Down | Up | Move | Cancel
    | PointerDown(index: nat) | PointerUp(index: nat)
    | HoverEnter | HoverMove | HoverExit

  predicate IsHoverAction(a: Action) {
    a == HoverEnter || a == HoverMove || a == HoverExit
  }

  /** One pointer of a motion event: its id, its X/Y axes and its
      RELATIVE_X/RELATIVE_Y axes. */
  datatype PointerCoords = PointerCoords(id: int, x: int, y: int, relativeX: int, relativeY: int)

  /** The cursor position of a motion event: AMOTION_EVENT_INVALID_CURSOR_POSITION
      on both axes, or a position. */
  datatype CursorPosition = InvalidCursorPosition | CursorAt(x: int, y: int)

  datatype MotionArgs = MotionArgs(
    deviceId: DeviceId,
    source: set<Source>,
    action: Action,
    pointers: seq<PointerCoords>,
    displayId: DisplayId,
    cursorPosition: CursorPosition)

  /** The nine notification kinds the choreographer accepts and forwards. */
  datatype NotifyArgs =
    | InputDevicesChanged(changeId: int, inputDeviceInfos: seq<DeviceInfo>)
    | ConfigurationChanged
    | Key
    | Motion(motion: MotionArgs)
    | Sensor
    | Switch
    | DeviceReset(resetDeviceId: DeviceId)
    | PointerCaptureChanged(enable: bool)
    | VibratorState

  datatype NotifyKind =
    | InputDevicesChangedKind | ConfigurationChangedKind | KeyKind | MotionKind | SensorKind
    | SwitchKind | DeviceResetKind | PointerCaptureChangedKind | VibratorStateKind

  function KindOf(n: NotifyArgs): NotifyKind {
    match n
    case InputDevicesChanged(_, _) => InputDevicesChangedKind
    case ConfigurationChanged => ConfigurationChangedKind
    case Key => KeyKind
    case Motion(_) => MotionKind
    case Sensor => SensorKind
    case Switch => SwitchKind
    case DeviceReset(_) => DeviceResetKind
    case PointerCaptureChanged(_) => PointerCaptureChangedKind
    case VibratorState => VibratorStateKind
  }
}
