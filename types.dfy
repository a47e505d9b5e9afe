/** Values shared by the round coordinator: directions, the abstract view of the
    ghosts, pacmen, pickups and timers it drives, and the calls it makes into them. */
module GameTypes {

  datatype Option<T> = None | Some(value: T)

  /** A movement direction requested by a player. */
  datatype Direction = Up | Down | Left | Right

  /** The four pursuers, in the order the coordinator lists them. */
  datatype GhostName = Blinky | Pinky | Inky | Clyde

  /** The modes a ghost can be in. The coordinator sets Scatter and Chase and compares with Eyes;
      Scared and Idle stand for the modes a ghost is in after becomeScared and while in the house,
      which the coordinator never compares with. */
  datatype GhostMode = Scatter | Chase | Scared | Eyes | Idle

  /** A ghost as the coordinator sees it: its name and its current mode. */
  datatype Ghost = Ghost(name: GhostName, mode: GhostMode)

  /** The coordinator's fixed ghost list. */
  const Ghosts: seq<GhostName> := [Blinky, Pinky, Inky, Clyde]

  /** The number of pacman objects the coordinator creates. */
  const PacmanCount: nat := 4

  datatype DotKind = PacDot | PowerPellet

  /** A pickup: the one bonus fruit, or a dot or power pellet at a maze tile with its point value. */
  datatype Pickup = Fruit | Dot(kind: DotKind, row: nat, column: nat, points: int)

  /** An entry of the coordinator's entity list. */
  datatype Entity =
    | PacmanEntity(pacmanIndex: int, enabled: bool)
    | GhostEntity(name: GhostName)
    | PickupEntity(pickup: Pickup)

  /** What a coordinator-created timer does when it fires. */
  datatype TimerAction =
    | FlashStep(flashes: int, maxFlashes: int)
    | CycleGhosts(nextMode: GhostMode)
    | EndIdle
    | HideFruit
    | Other

  /** A scheduled single-shot timer: an optional id, its delay in milliseconds and its action. */
  datatype Timer = Timer(timerId: Option<int>, delay: int, action: TimerAction)

  /** Calls the coordinator makes on one ghost. */
  datatype GhostCallKind =
    | BecomeScared | EndScared | ToggleScaredColor | EndIdleMode | ChangeMode(mode: GhostMode)
    | SetPaused(paused: bool)

  /** Calls the coordinator makes into its collaborators (ghosts, the fruit, Blinky, the timers). */
  datatype Call =
    | GhostCall(kind: GhostCallKind, target: GhostName)
    | PrepDeathAnimation(pacman: int)
    | ShowFruit(points: int)
    | HideFruitCall
    | BlinkySpeedUp
    | ClearTimeout(timerId: int)
    | PauseCall(timerId: int)
    | ResumeCall(timerId: int)

  /** Regrouping a log that grows by two pieces. */
  lemma AppendAssoc<T>(a: seq<T>, b: seq<T>, c: seq<T>)
    ensures a + b + c == a + (b + c)
  {
  }
}
