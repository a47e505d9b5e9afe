/** Input routing: the per-level control reversal, the keyboard map, the mapping of
    gamepads to pacmen on 4-, 2- and 1-player levels, and the neighbour a trigger rumbles. */
module Controls {
  import opened GameTypes

  // ---------------------------------------------------------------- control reversal

  predicate IsVertical(d: Direction) { d == Up || d == Down }
  predicate IsHorizontal(d: Direction) { d == Left || d == Right }

  /** Swaps left and right; up and down pass through. */
  function FlipHorizontal(d: Direction): Direction
  {
    match d
    case Left => Right
    case Right => Left
    case _ => d
  }

  /** Swaps up and down; left and right pass through. */
  function FlipVertical(d: Direction): Direction
  {
    match d
    case Up => Down
    case Down => Up
    case _ => d
  }

  /** The direction forwarded to a pacman once the level's reversal flags are applied,
      horizontal reversal first and vertical reversal second. */
  function Steer(direction: Direction, horizontalReversed: bool, verticalReversed: bool): Direction
  {
    var afterHorizontal := if horizontalReversed then FlipHorizontal(direction) else direction;
    if verticalReversed then FlipVertical(afterHorizontal) else afterHorizontal
  }

  /** Horizontal reversal alone swaps left and right and leaves up and down alone. */
  lemma HorizontalReversal(d: Direction)
    ensures Steer(Left, true, false) == Right && Steer(Right, true, false) == Left
    ensures IsVertical(d) ==> Steer(d, true, false) == d
  {
  }

  /** Vertical reversal alone swaps up and down and leaves left and right alone. */
  lemma VerticalReversal(d: Direction)
    ensures Steer(Up, false, true) == Down && Steer(Down, false, true) == Up
    ensures IsHorizontal(d) ==> Steer(d, false, true) == d
  {
  }

  /** Applying a level's reversal twice gives back the pressed direction; with no reversal nothing changes;
      a reversal never moves a direction to the other axis. */
  lemma SteerIsInvolution(d: Direction, horizontalReversed: bool, verticalReversed: bool)
    ensures Steer(Steer(d, horizontalReversed, verticalReversed), horizontalReversed, verticalReversed) == d
    ensures Steer(d, false, false) == d
    ensures IsVertical(Steer(d, horizontalReversed, verticalReversed)) <==> IsVertical(d)
  {
  }

  /** What pacman.changeDirection is called with: the pacman, the steered direction and whether pacmen may move. */
  datatype Command = Command(pacman: int, direction: Direction, allowMovement: bool)

  /** The coordinator's changeDirection: nothing is forwarded unless key presses are allowed and the
      engine is running; otherwise the level's reversal is applied. */
  function ChangeDirection(pacman: int, direction: Direction, allowKeyPresses: bool, engineRunning: bool,
                           horizontalReversed: bool, verticalReversed: bool, allowPacmanMovement: bool): (c: Option<Command>)
    ensures c.Some? <==> allowKeyPresses && engineRunning
    ensures c.Some? ==> c.value.pacman == pacman && c.value.allowMovement == allowPacmanMovement
    ensures c.Some? ==> Steer(c.value.direction, horizontalReversed, verticalReversed) == direction
  {
    SteerIsInvolution(direction, horizontalReversed, verticalReversed);
    if allowKeyPresses && engineRunning then
      Some(Command(pacman, Steer(direction, horizontalReversed, verticalReversed), allowPacmanMovement))
    else
      None
  }

  // ---------------------------------------------------------------- keyboard

  /** WASD and the arrow keys. */
  function MovementKey(keyCode: int): Option<Direction>
  {
    if keyCode == 87 || keyCode == 38 then Some(Up)
    else if keyCode == 83 || keyCode == 40 then Some(Down)
    else if keyCode == 65 || keyCode == 37 then Some(Left)
    else if keyCode == 68 || keyCode == 39 then Some(Right)
    else None
  }

  datatype KeyAction = TogglePause | ToggleSound | Move(pacman: nat, direction: Direction) | Ignore

  /** handleKeyDown's routing: Escape pauses, Q toggles sound, the arrow keys steer the first pacman
      and WASD (key codes above 41) the second. */
  function KeyDown(keyCode: int): KeyAction
  {
    if keyCode == 27 then TogglePause
    else if keyCode == 81 then ToggleSound
    else if MovementKey(keyCode).Some? then
      (if PacmanCount > 1 && keyCode > 41 then Move(1, MovementKey(keyCode).value)
       else Move(0, MovementKey(keyCode).value))
    else Ignore
  }

  /** The arrow keys drive pacman 0 and WASD drive pacman 1, each with all four directions; no key moves any other pacman. */
  lemma KeyboardPlayers(keyCode: int, d: Direction)
    ensures KeyDown(keyCode).Move? ==> KeyDown(keyCode).pacman <= 1
    ensures KeyDown(keyCode).Move? <==> MovementKey(keyCode).Some?
    ensures exists arrow :: 37 <= arrow <= 40 && KeyDown(arrow) == Move(0, d)
    ensures exists letter :: letter in {65, 68, 83, 87} && KeyDown(letter) == Move(1, d)
  {
    match d
    case Up => assert KeyDown(38) == Move(0, Up) && KeyDown(87) == Move(1, Up);
    case Down => assert KeyDown(40) == Move(0, Down) && KeyDown(83) == Move(1, Down);
    case Left => assert KeyDown(37) == Move(0, Left) && KeyDown(65) == Move(1, Left);
    case Right => assert KeyDown(39) == Move(0, Right) && KeyDown(68) == Move(1, Right);
  }

  // ---------------------------------------------------------------- gamepads

  /** A gamepad input delivered to one pacman. */
  datatype Route = Route(pacman: int, direction: Direction)

  /** Which pacman, if any, a gamepad's direction goes to once the gamepad number has passed the range guard. */
  function RouteForLevel(controller: int, direction: Direction, pacmenOnLevel: int): Option<Route>
  {
    if pacmenOnLevel == 4 then
      Some(Route(controller, direction))
    else if pacmenOnLevel == 2 then
      var pacman := if controller > 1 then 1 else 0;
      if (controller == 0 || controller == 2) && IsVertical(direction) then Some(Route(pacman, direction))
      else if (controller == 1 || controller == 3) && IsHorizontal(direction) then Some(Route(pacman, direction))
      else None
    else if pacmenOnLevel == 1 then
      if (controller == 0 && direction == Up) || (controller == 1 && direction == Down)
         || (controller == 2 && direction == Left) || (controller == 3 && direction == Right)
      then Some(Route(0, direction))
      else None
    else
      None
  }

  /** controllerToPacmanMapMove as written: the guard `controllerNumber <= pacmans.length` lets the
      gamepad numbered 4 (and any negative number) through. */
  function ControllerRouteAsWritten(controller: int, direction: Direction, pacmenOnLevel: int): Option<Route>
  {
    if controller <= PacmanCount then RouteForLevel(controller, direction, pacmenOnLevel) else None
  }

  /** On a 4-player level, gamepad 4 is routed to pacman 4, which does not exist. */
  lemma ControllerGuardOffByOne()
    ensures ControllerRouteAsWritten(PacmanCount, Up, 4) == Some(Route(PacmanCount, Up))
    ensures !(ControllerRouteAsWritten(PacmanCount, Up, 4).value.pacman < PacmanCount)
  {
  }

  /** Gamepad routing with the range guard the code evidently intends: only gamepads 0..3 are routed. */
  function ControllerRoute(controller: int, direction: Direction, pacmenOnLevel: int): (r: Option<Route>)
    ensures r.Some? ==> 0 <= r.value.pacman < pacmenOnLevel && r.value.pacman < PacmanCount
    ensures r.Some? ==> r.value.direction == direction && 0 <= controller < PacmanCount
    ensures 0 <= controller < PacmanCount ==> r == ControllerRouteAsWritten(controller, direction, pacmenOnLevel)
  {
    if 0 <= controller < PacmanCount then RouteForLevel(controller, direction, pacmenOnLevel) else None
  }

  /** On a 4-player level every gamepad 0..3 drives its own pacman in every direction. */
  lemma FourPlayerRouting(controller: int, direction: Direction)
    requires 0 <= controller < PacmanCount
    ensures ControllerRoute(controller, direction, 4) == Some(Route(controller, direction))
  {
  }

  /** The gamepad that owns an axis of a pacman on a 2-player level: even gamepads steer up/down,
      odd ones left/right; gamepads 0 and 1 share pacman 0, gamepads 2 and 3 pacman 1. */
  function TwoPlayerController(pacman: int, direction: Direction): int
  {
    2 * pacman + (if IsVertical(direction) then 0 else 1)
  }

  lemma TwoPlayerRouting(controller: int, direction: Direction, pacman: int)
    requires 0 <= pacman < 2
    ensures ControllerRoute(controller, direction, 2) == Some(Route(pacman, direction))
            <==> controller == TwoPlayerController(pacman, direction)
  {
  }

  /** The gamepad that owns a direction on a 1-player level: 0 up, 1 down, 2 left, 3 right. */
  function SinglePlayerController(direction: Direction): int
  {
    match direction
    case Up => 0
    case Down => 1
    case Left => 2
    case Right => 3
  }

  lemma SinglePlayerRouting(controller: int, direction: Direction)
    ensures ControllerRoute(controller, direction, 1).Some? <==> controller == SinglePlayerController(direction)
    ensures ControllerRoute(controller, direction, 1).Some? ==> ControllerRoute(controller, direction, 1).value.pacman == 0
  {
  }

  // ---------------------------------------------------------------- trigger rumble

  datatype Trigger = LeftTrigger | RightTrigger

  /** The gamepad a trigger press rumbles when four gamepads are connected: the left trigger the
      previous gamepad, the right trigger the next, wrapping between 0 and 3. */
  function RumbleTarget(controller: int, trigger: Trigger, controllerCount: int): Option<int>
  {
    if controllerCount == 4 then
      match trigger
      case LeftTrigger => Some(if controller - 1 < 0 then 3 else controller - 1)
      case RightTrigger => Some(if controller + 1 > 3 then 0 else controller + 1)
    else
      None
  }

  /** Among four gamepads the triggers reach the neighbours modulo 4, and left undoes right. */
  lemma RumbleNeighbours(controller: int)
    requires 0 <= controller < 4
    ensures RumbleTarget(controller, LeftTrigger, 4) == Some((controller + 3) % 4)
    ensures RumbleTarget(controller, RightTrigger, 4) == Some((controller + 1) % 4)
    ensures RumbleTarget(RumbleTarget(controller, RightTrigger, 4).value, LeftTrigger, 4) == Some(controller)
    ensures RumbleTarget(RumbleTarget(controller, LeftTrigger, 4).value, RightTrigger, 4) == Some(controller)
  {
  }
}
