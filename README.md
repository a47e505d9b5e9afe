# Round-state model of the multiplayer Pac-Man game coordinator

This project models the round logic of `GameCoordinator` in
`app/scripts/core/gameCoordinator.js`. This is the object that keeps the score and the high
score, the lives and the single extra life, the remaining-dot count and its thresholds, the level
and its configuration, and the ghost combo. It also keeps the scared-ghost and eyes bookkeeping,
the ghosts waiting in the house, the list of active timers, and the routing of keyboard and
gamepad input to the pacmen.

## Modules

- `types.dfy` (`GameTypes`): the values the coordinator works with. These are directions, ghosts
  as a name and a mode, pickups (the fruit, or a dot or power pellet at a maze tile), entity-list
  entries, and timers as records with an optional id, a delay and an action. A `Call` value stands
  for each call the coordinator makes into a ghost, the fruit, Blinky or a timer.
- `maze.dfy` (`MazeLayout`): the 31 by 28 maze, and the pickups that a row-major scan of it
  yields.
- `rules.dfy` (`Rules`): the pure rules. These are the siren track, the combo points, the level
  banner, the fruit value, the power-up and ghost-release delays, the scatter/chase cycle, the
  per-level configuration table and the screen-scale search.
- `controls.dfy` (`Controls`): control reversal, the keyboard map, gamepad-to-pacman routing, and
  the neighbour a trigger rumbles.
- `scoring.dfy` (`Scoring`): the award rule with its high score and one-time extra life, and the
  remaining-dot thresholds.
- `timers.dfy` (`TimerList`): `timerExists` and removal of timers by id.
- `entities.dfy` (`EntityLists`): the lists the coordinator builds. These are the scared-ghost
  list, the pacmen enabled on a level, the dots appended while the maze is scanned, and the dot
  recount.
- `coordinator.dfy` (`Coordinator`): the class `GameCoordinator`. It has the coordinator's fields
  and one method per handler. Each method's postcondition ties the new state to the pure
  definitions above.

## How the model treats time and collaborators

Calls into ghosts, a pacman, the fruit, Blinky and timers are appended to a `calls` field, oldest
first. The coordinator cannot see those objects' internals, so the model records only that the
call was made. The calls recorded are the ones listed in `GameTypes.Call`; "Left out" names the
calls that are not.

A timer made by `NewTimer` is not yet in `activeTimers`. It enters the list only when the
`AddTimer` handler runs for it, as the `addTimer` event listener does in the code.

Two invariants hold between handlers:

- `Valid`: the high score is never below the points, the lives are never negative, the next id
  `NewTimer` hands out is never 0, and a level has 1, 2 or 4 players.
- `MazeReady`: once the first game has started, the pickup list is the fruit followed by the
  maze's dots and pellets. Only `drawMaze` sets it. No method changes `mazeArray` after the
  constructor stores the fixed layout. So `Reset` and `StartButtonClick` place exactly the maze's
  dots and pellets on every game, the first or a later one.

A timer is a value record. Each timer the coordinator creates gets the next id from a counter
that never yields 0. A chain of nested timer callbacks becomes a separate method for each
callback:

- `ReadyElapsed` for the "Ready!" timer;
- `DeathAnimationDone` and `DeathRestart` for the death sequence;
- `CompleteLevelAdvance` for the end of the maze flashing;
- `EatGhostPauseDone` for the one-second pause after a ghost is eaten;
- `GhostCycleFired`, `EndIdleFired` and `HideFruitFired` for the other timers.

The stored high score is a parameter of `Reset`. The ghosts' modes are a parameter of `PowerUp`.
The available screen size is a parameter of the constructor.

## Behaviour of the code worth knowing

- `dotEaten` clears the level when the remaining-dot count reaches 120
  (`app/scripts/core/gameCoordinator.js:1415-1418`). The check for 0 above it is commented out
  (1410-1414).
  - 120 is the named constant `Scoring.LevelClearRemaining`.
  - `Scoring.SecondFruitAndSpeedUpsUnreachable` proves what follows from it, from any count
    above 120: the second fruit (at 74) and both Blinky speed-ups (at 40 and 20) are never reached.
- `eatGhost` runs `this.ghostCombo += 1` (1729) before `determineComboPoints()` (1730). The combo
  starts at 0 on a power-up, so the first ghost eaten is worth 100 * 2^1 = 200
  (`Rules.FourGhostCombo`).
- `setupForLevel` sets 4 players, speed 1 and no reversal (1574-1577) before its `switch` (1578).
  A level outside 1..11 therefore keeps these defaults (`Rules.PlayersPerLevel`).

## Model

| member | source | states |
|---|---|---|
| MazeLayout.MazeShape | app/scripts/core/gameCoordinator.js:41-73 | the maze has 31 rows of 28 tiles |
| MazeLayout.MazePickupsSound | app/scripts/core/gameCoordinator.js:661-680 | MazePickups, drawMaze's row-major scan: every scanned pickup comes from an 'o' or 'O' tile at its own row and column, worth 10 for a dot and 50 for a power pellet |
| MazeLayout.MazePickupsComplete | app/scripts/core/gameCoordinator.js:661-680 | every 'o' and 'O' tile of the maze yields its pickup |
| MazeLayout.MazePickupsOrdered | app/scripts/core/gameCoordinator.js:661-680 | the pickups are listed in strictly increasing row-major order, so no tile yields two |
| Rules.SirenRisesAsDotsFall | app/scripts/core/gameCoordinator.js:1448-1462 | DetermineSiren: the siren tier is 3 below 20 dots, 2 below 40 and 1 below 80; there is no siren from 80 on; fewer dots never select a quieter siren |
| Rules.DetermineComboPoints | app/scripts/core/gameCoordinator.js:1706-1708 | a ghost is worth at least 100, in multiples of 100 |
| Rules.ComboDoubles | app/scripts/core/gameCoordinator.js:1706-1708 | each step of the combo doubles the award |
| Rules.FourGhostCombo | app/scripts/core/gameCoordinator.js:1729-1730 | with the combo incremented before scoring, the first four ghosts are worth 200, 400, 800 and 1600 |
| Rules.ComboTotalClosedForm | app/scripts/core/gameCoordinator.js:1729-1737 | k ghosts in one power-up award 200 * (2^k - 1) in total |
| Rules.DetermineLevelNameAndImg | app/scripts/core/gameCoordinator.js:763-836 | levels 1..11 have a named banner whose pictures lie under the kids' image directory; any other level shows its own number |
| Rules.BannerPicturesPaired | app/scripts/core/gameCoordinator.js:765-830 | levels 1-9 show one picture twice, and levels 10 and 11 show two different pictures |
| Rules.FruitPoints | app/scripts/core/gameCoordinator.js:96-105 | the fruit is worth 100 to 5000, and 5000 on any level outside 1..8 (the fallback at line 1426) |
| Rules.FruitPointsNonDecreasing | app/scripts/core/gameCoordinator.js:96-105 | from level 1 on, a later level's fruit is never worth less |
| Rules.PowerDuration | app/scripts/core/gameCoordinator.js:1697 | the power-up lasts a non-negative whole number of seconds, and 0 exactly from speed 7 on |
| Rules.PowerDurationShrinks | app/scripts/core/gameCoordinator.js:1697 | a faster level never gives a longer power-up |
| Rules.ReleaseDelay | app/scripts/core/gameCoordinator.js:904 | the release delay is a non-negative whole number of seconds, and 0 exactly from speed 3 on |
| Rules.ReleaseDelayBySpeed | app/scripts/core/gameCoordinator.js:904 | the delay never grows with speed; speeds 1, 2 and 5 wait 8 s, 4 s and 0 s |
| Rules.CycleDelay | app/scripts/core/gameCoordinator.js:887 | a cycle phase lasts 7 s or 20 s |
| Rules.NextCycleMode | app/scripts/core/gameCoordinator.js:888 | the next phase is scatter or chase |
| Rules.CycleAlternates | app/scripts/core/gameCoordinator.js:886-897 | scatter and chase alternate, and two switches return to the starting mode |
| Rules.CyclePeriod | app/scripts/core/gameCoordinator.js:886-897 | a cycle begun in scatter is back in scatter every 27 s and in chase 7 s after each of those points |
| Rules.ConfigForLevel | app/scripts/core/gameCoordinator.js:1573-1630 | every level has 1, 2 or 4 players and speed 1, 2 or 5, and reverses vertically only if it also reverses horizontally |
| Rules.PlayersPerLevel | app/scripts/core/gameCoordinator.js:1573-1630 | levels 1-4 have 4 players, 5-8 have 2 and 9-11 have 1; any other level gets 4 players, speed 1 and no reversal |
| Rules.ReversalTable | app/scripts/core/gameCoordinator.js:1586-1629 | horizontal reversal exactly on levels 3, 4, 7, 8 and 11; vertical reversal exactly on 4, 8 and 11 |
| Rules.TwoPlayerLevelsRepeat | app/scripts/core/gameCoordinator.js:1579-1614 | levels 5-8 repeat levels 1-4 with two players |
| Rules.DetermineScale | app/scripts/core/gameCoordinator.js:127-152 | every scale from the start up to the result fits, and the next one does not |
| Rules.LargestFittingScale | app/scripts/core/gameCoordinator.js:127-152 | the search from 1 returns the largest scale at which the maze fits |
| Controls.HorizontalReversal | app/scripts/core/gameCoordinator.js:1180-1185 | horizontal reversal swaps left and right and leaves up and down alone |
| Controls.VerticalReversal | app/scripts/core/gameCoordinator.js:1187-1192 | vertical reversal swaps up and down and leaves left and right alone |
| Controls.SteerIsInvolution | app/scripts/core/gameCoordinator.js:1180-1192 | Steer, the level's reversal of a pressed direction: applying a level's reversal twice gives back the pressed direction; no reversal changes nothing; the axis is kept |
| Controls.ChangeDirection | app/scripts/core/gameCoordinator.js:1178-1196 | a command is sent exactly when key presses are allowed and the engine runs; it goes to the given pacman with the movement flag, and its direction reverses to the pressed one |
| Controls.KeyboardPlayers | app/scripts/core/gameCoordinator.js:1202-1215 | KeyDown, the keyboard map: exactly the movement keys move a pacman, only pacman 0 or 1; the arrow keys reach pacman 0 and WASD pacman 1 in every direction |
| Controls.ControllerGuardOffByOne | app/scripts/core/gameCoordinator.js:1041-1043 | ControllerRouteAsWritten, the routing with the guard as written: gamepad 4 on a 4-player level is routed to pacman 4, which does not exist |
| Controls.ControllerRoute | app/scripts/core/gameCoordinator.js:1041-1076 | a routed gamepad reaches a pacman that plays on the level with the pressed direction; for gamepads 0..3 it agrees with the code as written |
| Controls.FourPlayerRouting | app/scripts/core/gameCoordinator.js:1042-1043 | on a 4-player level gamepad i drives pacman i in every direction |
| Controls.TwoPlayerRouting | app/scripts/core/gameCoordinator.js:1044-1054 | on a 2-player level a gamepad drives a pacman in a direction exactly when it is that pacman's gamepad for that axis |
| Controls.SinglePlayerRouting | app/scripts/core/gameCoordinator.js:1055-1066 | on a 1-player level each of gamepads 0-3 owns exactly one direction of pacman 0 |
| Controls.RumbleNeighbours | app/scripts/core/gameCoordinator.js:1088-1101 | RumbleTarget, the gamepad a trigger rumbles: with four gamepads the triggers rumble the neighbours modulo 4, and left undoes right |
| Scoring.Award | app/scripts/core/gameCoordinator.js:1260-1274 | points grow by exactly p; the high score becomes the larger of the old one and the new points; the extra life is granted, adding one life, exactly when it was not given yet and points reach 10000 |
| Scoring.AwardSeries | app/scripts/core/gameCoordinator.js:1260-1274 | over any series of awards: the points are the running total; the extra life is given exactly when some intermediate score reaches 10000, adding one life in all; the high score is the largest of the old one and every intermediate score |
| Scoring.ExtraLifeAtMostOnce | app/scripts/core/gameCoordinator.js:1269-1274 | once the extra life is given, no later award adds a life |
| Scoring.DotEaten | app/scripts/core/gameCoordinator.js:1397-1418 | the count falls by one; fruit exactly at 174 and 74; Blinky faster exactly at 40 and 20; at 120 the count becomes 0 and the level advances; no two of these on one dot |
| Scoring.EatRun | app/scripts/core/gameCoordinator.js:1415-1418 | in any run of dots, the dot that clears the level leaves the count at 0 |
| Scoring.RunToLevelClear | app/scripts/core/gameCoordinator.js:1397-1418 | from a count above 120, the level advances on exactly the dot that reaches 120; the fruit appears only when passing 174; Blinky never speeds up |
| Scoring.SecondFruitAndSpeedUpsUnreachable | app/scripts/core/gameCoordinator.js:1402-1418 | from a count above 120 the fruit appears at most once, and the speed-ups are never reached before the level ends |
| TimerList.WithoutId | app/scripts/core/gameCoordinator.js:1864-1866 | only a length bound: the filtered list is never longer (its contents are stated by WithoutIdMembers) |
| TimerList.WithoutIdMembers | app/scripts/core/gameCoordinator.js:1864-1866 | exactly the entries with another id, or none, are kept |
| TimerList.WithoutIdAppend | app/scripts/core/gameCoordinator.js:1864-1866 | filtering splits over concatenation, so the kept entries stay in their original order |
| TimerList.WithoutIdAbsent | app/scripts/core/gameCoordinator.js:1864-1866 | with no entry carrying the id, the list is unchanged |
| TimerList.WithoutIdIdempotent | app/scripts/core/gameCoordinator.js:1864-1866 | removing an id twice is the same as removing it once |
| TimerList.RemoveAfterAdd | app/scripts/core/gameCoordinator.js:1824-1826 | adding a timer and then removing it leaves what removal alone leaves |
| TimerList.RemoveTimerFrom | app/scripts/core/gameCoordinator.js:1861-1868 | TimerExists, timerExists at 1833-1835 (a timer is present and its id is set and not 0), decides the removal: a timer that does not exist leaves the list unchanged |
| TimerList.RemoveTimerFromMembers | app/scripts/core/gameCoordinator.js:1861-1868 | for an existing timer, no entry with its id is left and every other entry is kept |
| TimerList.RoundTimersGone | app/scripts/core/gameCoordinator.js:1305-1308 | after the four round timers are removed, none of their ids is left and every other entry is kept |
| EntityLists.Broadcast | app/scripts/core/gameCoordinator.js:1693-1695 | one call per named ghost, in list order |
| EntityLists.ScaredNames | app/scripts/core/gameCoordinator.js:1685-1691 | only a length bound: the scared list is no longer than the ghost list (its contents are stated by ScaredNamesMembers) |
| EntityLists.ScaredNamesMembers | app/scripts/core/gameCoordinator.js:1685-1691 | a ghost is scared exactly when it is not in eyes mode |
| EntityLists.WithoutGhost | app/scripts/core/gameCoordinator.js:1724-1726 | only a length bound: the filtered list is never longer (its contents are stated by WithoutGhostMembers) |
| EntityLists.WithoutGhostMembers | app/scripts/core/gameCoordinator.js:1724-1726 | exactly the other ghosts' entries are kept; a list without the ghost is unchanged |
| EntityLists.PacmenEnabledByIndex | app/scripts/core/gameCoordinator.js:1637-1639 | EnablePacmen, setupForLevel's pass over the entity list: each pacman is enabled exactly when its index is below the number of players; other entries are unchanged |
| EntityLists.ScanRow | app/scripts/core/gameCoordinator.js:662-679 | scanning one row appends that row's dots and pellets, in order, to the pickups and the entity list, and counts them |
| EntityLists.ScanMaze | app/scripts/core/gameCoordinator.js:652-680 | the pickups become the fruit followed by every maze dot and pellet in row-major order; the entity list gains the same dots; the count rises by their number |
| EntityLists.NonFruit | app/scripts/core/gameCoordinator.js:611-617 | only a length bound: the list without the fruit is never longer (its contents are stated by NonFruitMembers) |
| EntityLists.NonFruitMembers | app/scripts/core/gameCoordinator.js:611-617 | every pickup except the fruit is kept |
| EntityLists.CountDots | app/scripts/core/gameCoordinator.js:1552-1560 | only a bound: the recount is at most the number of entities (what it counts is stated by CountDotsZero and CountDotsOfPickups) |
| EntityLists.CountDotsZero | app/scripts/core/gameCoordinator.js:1552-1560 | the recount is 0 exactly when no dot or pellet is in the list |
| EntityLists.CountDotsOfPickups | app/scripts/core/gameCoordinator.js:1552-1560 | dots appended to the entity list are each counted once |
| EntityLists.MazeHasNoFruit | app/scripts/core/gameCoordinator.js:664-666 | the maze scan never yields the fruit |
| EntityLists.NonFruitKeeps | app/scripts/core/gameCoordinator.js:611-617 | dropping the fruit from the fruit followed by a fruit-free list gives back that list; with MazeReady, which says the pickups of any later game are the fruit followed by the maze's dots, PlaceDots uses it to show that the re-add pass re-adds exactly the maze's dots |
| Coordinator.ComboAwardsTotal | app/scripts/core/gameCoordinator.js:1729-1737 | the awards of k ghosts in one power-up sum to 200 * (2^k - 1) |
| Coordinator.GameCoordinator.constructor | app/scripts/core/gameCoordinator.js:75-80 | starts at level 1 on the first game, with the largest fitting scale and the 31 by 28 maze; both invariants hold |
| Coordinator.GameCoordinator.NewTimer | app/scripts/core/gameCoordinator.js:1427-1429 | a new timer gets the next id, which is never 0 |
| Coordinator.GameCoordinator.AddTimer | app/scripts/core/gameCoordinator.js:1824-1826 | exactly one entry is appended; this is the only way a timer made by NewTimer enters the list |
| Coordinator.GameCoordinator.RemoveTimer | app/scripts/core/gameCoordinator.js:1861-1868 | the list becomes RemoveTimerFrom of the old list, and clearTimeout is called with the timer's id exactly for an existing timer (ClearCalls) |
| Coordinator.GameCoordinator.PauseTimer | app/scripts/core/gameCoordinator.js:1841-1845 | an existing timer is paused once, with its id, otherwise nothing happens (PauseCalls) |
| Coordinator.GameCoordinator.ResumeTimer | app/scripts/core/gameCoordinator.js:1851-1855 | an existing timer is resumed once, with its id, otherwise nothing happens (ResumeCalls) |
| Coordinator.GameCoordinator.StopRoundTimers | app/scripts/core/gameCoordinator.js:1305-1308 | the fruit, cycle, release and flash timers are removed in that order |
| Coordinator.GameCoordinator.CallEach | app/scripts/core/gameCoordinator.js:1693-1695 | one call per listed ghost, in order |
| Coordinator.GameCoordinator.AwardPoints | app/scripts/core/gameCoordinator.js:1260-1274 | the score fields change exactly as Scoring.Award says, and the high score stays at least the points |
| Coordinator.GameCoordinator.SetupForLevel | app/scripts/core/gameCoordinator.js:1573-1645 | the configuration becomes the level's row of the table, and the entity list becomes EnablePacmen of the old one: every pacman is enabled exactly when its index is below the number of players |
| Coordinator.GameCoordinator.DrawMaze | app/scripts/core/gameCoordinator.js:651-682 | the pickups become the fruit followed by the maze's dots; these are appended to the entity list and counted |
| Coordinator.GameCoordinator.ReAddPickups | app/scripts/core/gameCoordinator.js:611-617 | every non-fruit pickup is appended to the entity list and counted |
| Coordinator.GameCoordinator.PlaceDots | app/scripts/core/gameCoordinator.js:600-618 | on the first game the maze is drawn, later the pickups are re-added; either way the pickups are the fruit followed by the maze's dots, and the entity list gains exactly the maze's dots, all counted |
| Coordinator.GameCoordinator.RebuildLevel | app/scripts/core/gameCoordinator.js:586-618 | the entity list is the configured base list followed by the maze's dots and pellets; the count equals their number; the level is the start level; both invariants are kept |
| Coordinator.GameCoordinator.ResetDefaults | app/scripts/core/gameCoordinator.js:481-495 | no timers, 0 points, 2 lives, no extra life, the stored high score, and the new-game flags |
| Coordinator.GameCoordinator.Reset | app/scripts/core/gameCoordinator.js:480-630 | the new-game defaults, the start level's configuration, an entity list that is the configured base list followed by the maze's dots and pellets, and a remaining count equal to their number, on the first game and on every later one |
| Coordinator.GameCoordinator.StartGameplay | app/scripts/core/gameCoordinator.js:721-741 | no scared ghosts or eyes, pacmen held, "Ready!" for 4.5 s at the start of a game and 2 s otherwise, and the level's banner |
| Coordinator.GameCoordinator.ReadyElapsed | app/scripts/core/gameCoordinator.js:743-760 | play and pausing are on, the cycle starts in scatter, and Pinky, Inky and Clyde wait to be released |
| Coordinator.GameCoordinator.GhostCycle | app/scripts/core/gameCoordinator.js:886-897 | schedules the switch to the other mode after the mode's duration |
| Coordinator.GameCoordinator.GhostCycleFired | app/scripts/core/gameCoordinator.js:890-896 | every ghost changes to the next mode, in list order, and the following switch is scheduled |
| Coordinator.GameCoordinator.ReleaseGhost | app/scripts/core/gameCoordinator.js:902-911 | a release is scheduled exactly when ghosts wait in the house |
| Coordinator.GameCoordinator.EndIdleFired | app/scripts/core/gameCoordinator.js:906-909 | the first waiting ghost is released and leaves the queue |
| Coordinator.GameCoordinator.CreateFruit | app/scripts/core/gameCoordinator.js:1424-1430 | the old fruit timer is removed, the level's fruit is shown, and it is hidden after 10 s |
| Coordinator.GameCoordinator.HideFruitFired | app/scripts/core/gameCoordinator.js:1427-1429 | the fruit is hidden |
| Coordinator.GameCoordinator.SpeedUpBlinky | app/scripts/core/gameCoordinator.js:1435-1436 | Blinky is sped up |
| Coordinator.GameCoordinator.DotEaten | app/scripts/core/gameCoordinator.js:1397-1419 | the count and the follow-ups are those of Scoring.DotEaten; the timers, calls and flags change exactly as the chosen follow-up says |
| Coordinator.GameCoordinator.FlashGhosts | app/scripts/core/gameCoordinator.js:1652-1670 | on the last flash the scared ghosts end scared mode and the list empties; before it, while any ghost is scared, they change colour and the next flash follows in 250 ms |
| Coordinator.GameCoordinator.PowerUp | app/scripts/core/gameCoordinator.js:1675-1701 | given the modes of the coordinator's four ghosts, in their order: the combo restarts at 0; the scared list is exactly the ghosts not in eyes mode; each of them is scared; flashing starts after the speed's power duration |
| Coordinator.GameCoordinator.PauseRound | app/scripts/core/gameCoordinator.js:1719-1752 | the flash, cycle and fruit timers are paused in that order, then every ghost is paused |
| Coordinator.GameCoordinator.EatGhost | app/scripts/core/gameCoordinator.js:1714-1754 | three timers and every ghost are paused; only the eaten ghost leaves the scared list; one more pair of eyes; the combo rises by one and its points are awarded; the pacmen stop |
| Coordinator.GameCoordinator.EatGhostPauseDone | app/scripts/core/gameCoordinator.js:1756-1774 | the three timers resume, the pacmen move again and every ghost is unpaused |
| Coordinator.GameCoordinator.RestoreGhost | app/scripts/core/gameCoordinator.js:1781-1782 | one pair of eyes fewer |
| Coordinator.GameCoordinator.DeathSequence | app/scripts/core/gameCoordinator.js:1298-1310 | pausing and key presses are switched off and the four round timers are removed |
| Coordinator.GameCoordinator.DeathAnimationDone | app/scripts/core/gameCoordinator.js:1321-1350 | the dying pacman's death animation is prepared; then a life is used up when one is left; otherwise the game is over and the lives stay at 0 |
| Coordinator.GameCoordinator.DeathRestart | app/scripts/core/gameCoordinator.js:1334-1345 | key presses come back, the fruit is hidden, and the round restarts with the short "Ready!" |
| Coordinator.GameCoordinator.AdvanceLevel | app/scripts/core/gameCoordinator.js:1467-1483 | pausing and key presses are switched off and the four round timers are removed |
| Coordinator.GameCoordinator.RecountDots | app/scripts/core/gameCoordinator.js:1552-1560 | every dot and pellet in the entity list is added to the count |
| Coordinator.GameCoordinator.CompleteLevelAdvance | app/scripts/core/gameCoordinator.js:1506-1562 | the level goes up by one; past level 11 nothing else changes; otherwise the new level is configured, its dots are counted again and the round restarts |
| Coordinator.GameCoordinator.LevelButtonClick | app/scripts/core/gameCoordinator.js:175-177 | the next game starts at the chosen level |
| Coordinator.GameCoordinator.StartButtonClick | app/scripts/core/gameCoordinator.js:157-173 | a reset game that is no longer the first, with exactly the maze's dots and pellets placed and counted on every game, and the long "Ready!" |
| Coordinator.GameCoordinator.ControllerMove | app/scripts/core/gameCoordinator.js:1036-1077 | a gamepad only reaches a pacman playing on the level, only while key presses are allowed and the engine runs, and the reversal turns the sent direction into the pressed one |
| Coordinator.GameCoordinator.KeyMove | app/scripts/core/gameCoordinator.js:1202-1215 | a key steers exactly when it is a movement key and input is allowed; only pacman 0 or 1; the reversal turns the sent direction into the pressed one |

## Left out

- DOM work, sound, asset preloading, the video finale and `displayText` are presentation and I/O.
  The maze flashing in `advanceLevel` is left out with them.
- `playDeathSound` picks a random track and only plays a sound.
- The `gameControl` connect/disconnect callbacks, `rumbleAllControllers`,
  `stopRumbleAllControllers` and `rumbleControllerDeath` are gamepad-library glue. Only the
  routing and the trigger's wrap-around arithmetic are modelled.
- `handlePauseKey` is left out (lines 1220-1254), because its state lives outside the
  coordinator:
  - It acts only while `allowPause` is set, and clears it (1221-1222).
  - A 500 ms `setTimeout` sets `allowPause` again unless a cutscene runs (1224-1228).
  - It calls `changePausedState` on the game engine directly (1230). The engine is not part of
    this model.
  - It resumes (1239-1241) or pauses (1249-1251) every timer in `activeTimers`. Which of the two
    depends on `gameEngine.started`, which is engine state the model does not hold.
- `gameOver` is left out. It stores the high score, then schedules a timer that shows "game
  over", calls `fruit.hideFruit()` (1379) and later shows the menu. That `hideFruit` call is not
  recorded.
- `setTimeout`, `setInterval` and wall-clock delays are replaced by explicit methods for each
  timer callback. Timer delays are recorded as numbers.
- Timer ids come from `timer.js`, which is not part of this model. `NewTimer` hands out ids from a
  counter.
- The timers' paused state lives in `timer.js`, which is not part of this model. Pausing and
  resuming appear only as calls.
- `localStorage` is replaced by a parameter: `Reset` takes the stored high score as a natural
  number.
  - The code reads a string, or null, and relies on JavaScript coercion in `awardPoints`.
- Ghost, Pacman, Pickup and GameEngine internals (movement, pathing, proximity checks, `reset`,
  `resetDefaultSpeed`, the speed level pushed into entities) are not part of this model.
  - Recorded: the coordinator's calls into ghosts, including `pause(true)` and `pause(false)`
    around a ghost being eaten (1752, 1772); `prepDeathAnimation` (1326); and the fruit and
    Blinky calls.
  - Not recorded: the entities' resets, their `moving`, `display`, `animate` and
    `allowCollision` flags, and the `hideFruit` call inside `gameOver`.
- The ghosts' modes are given to `PowerUp`, because they live in `ghost.js`.
- EndIdleFired: with an empty release queue the code's callback throws. The model returns `None`
  and changes nothing.
- Coordinator.GameCoordinator.constructor: `ghostCombo` starts at 0 here. The code leaves it
  unset until the first `powerUp`, and a ghost can only be eaten after one.
- Coordinator.GameCoordinator.Reset: `reset` assigns its fields in a different order. No handler
  runs in between, so the order cannot be observed.
- The maze's total number of dots and pellets is not computed. The contracts speak of
  `|MazePickups(mazeArray)|` instead.
- Controls.ControllerRoute: the class uses the corrected guard (gamepads 0..3), not the guard as
  written. The written guard is modelled separately; see Findings.

## Findings

| source | as written | input that shows it | evidently intended | confidence | as-written member | corrected member |
|---|---|---|---|---|---|---|
| app/scripts/core/gameCoordinator.js:1041 | `controllerToPacmanMapMove` admits every gamepad number up to `pacmans.length`, which is 4 | gamepad id 4 on a 4-player level (levels 1-4): the code calls `changeDirection` on `pacmans[4]`, which is undefined | only gamepads 0..3 are routed (`controllerNumber < pacmans.length`) | not executed | Controls.ControllerGuardOffByOne | Controls.ControllerRoute |
