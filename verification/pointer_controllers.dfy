/** The pointer-controller resource as the choreographer drives it: the kind
    it was created for, the display it is bound to, a position, a visibility
    flag and the touch spots per display. Rendering is not modelled. */
module PointerControllers {
  import opened InputTypes

  datatype ControllerType = MouseController | TouchController | StylusController

  /** A routing context: the kind of controller and the display it serves. */
  datatype Context = Context(kind: ControllerType, displayId: DisplayId)

  /** A live controller. `id` is its identity: the position of its creation
      in the factory's log. `displayId` stays ADISPLAY_ID_NONE until a
      viewport has been set on it. */
  datatype PointerController = PointerController(
    id: nat,
    kind: ControllerType,
    displayId: DisplayId,
    x: int,
    y: int,
    shown: bool,
    spots: map<DisplayId, set<int>>)

  /** What the controller factory hands back: unbound, at the origin,
      hidden and without spots. */
  function Created(id: nat, kind: ControllerType): PointerController {
    PointerController(id, kind, ADISPLAY_ID_NONE, 0, 0, false, map[])
  }

  function SetDisplayViewport(pc: PointerController, displayId: DisplayId): PointerController {
    pc.(displayId := displayId)
  }

  function MoveBy(pc: PointerController, dx: int, dy: int): PointerController {
    pc.(x := pc.x + dx, y := pc.y + dy)
  }

  function SetPosition(pc: PointerController, x: int, y: int): PointerController {
    pc.(x := x, y := y)
  }

  function Unfade(pc: PointerController): PointerController {
    pc.(shown := true)
  }

  function Fade(pc: PointerController): PointerController {
    pc.(shown := false)
  }

  function SetSpots(pc: PointerController, displayId: DisplayId, ids: set<int>): PointerController {
    pc.(spots := pc.spots[displayId := ids])
  }

  function ClearSpots(pc: PointerController): PointerController {
    pc.(spots := map[])
  }
}
