/** The round coordinator: the mutable round state and the event handlers that drive it.
    Calls into the ghosts, the fruit and the timers are recorded in `calls`; timers are
    value records whose ids come from a counter. */
module Coordinator {
  import opened GameTypes
  import opened Rules
  import opened MazeLayout
  import opened Controls
  import opened TimerList
  import opened EntityLists
  import Scoring

  const StartingLives: int := 2
  const FinalLevel: int := 11
  const InitialReadyDelay: int := 4500
  const ReadyDelay: int := 2000
  const FruitDuration: int := 10000
  const FlashInterval: int := 250
  const MaxFlashes: int := 9

  /** What startGameplay shows: how long "Ready!" stays up, and the level's name and pictures. */
  datatype ReadyScreen = ReadyScreen(delay: int, banner: LevelBanner)

  /** The entity list reset builds before the dots are added: four pacmen, four ghosts, the fruit. */
  const BaseEntities: seq<Entity> := [
    PacmanEntity(0, true), PacmanEntity(1, false), PacmanEntity(2, false), PacmanEntity(3, false),
    GhostEntity(Blinky), GhostEntity(Pinky), GhostEntity(Inky), GhostEntity(Clyde),
    PickupEntity(Fruit)
  ]

  /** The awards of the first k ghosts eaten after a power pellet, in order. */
  function ComboAwards(k: nat): (r: seq<int>)
    ensures |r| == k
  {
    if k == 0 then [] else ComboAwards(k - 1) + [DetermineComboPoints(k) as int]
  }

  /** Eating k ghosts after one power pellet raises the score by 200 * (2^k - 1): 3000 for all four. */
  lemma {:induction false} ComboAwardsTotal(k: nat)
    ensures Scoring.Sum(ComboAwards(k)) == ComboTotal(k) == 200 * (Pow2(k) - 1)
  {
    ComboTotalClosedForm(k);
    if k > 0 {
      ComboAwardsTotal(k - 1);
      SumAppend(ComboAwards(k - 1), DetermineComboPoints(k));
    }
  }

  lemma {:induction false} SumAppend(ps: seq<int>, p: int)
    ensures Scoring.Sum(ps + [p]) == Scoring.Sum(ps) + p
  {
    if ps != [] {
      assert (ps + [p])[1..] == ps[1..] + [p];
      SumAppend(ps[1..], p);
    } else {
      assert [] + [p] == [p];
    }
  }

  // ---------------------------------------------------------------- the coordinator

  class GameCoordinator {
    // scoring
    var points: int
    var highScore: int
    var lives: int
    var extraLifeGiven: bool
    // level and its configuration
    var remainingDots: int
    var level: int
    var resetLevel: int
    var speedLevel: int
    var pacmenOnLevel: int
    var horizontalControlsReversed: bool
    var verticalControlsReversed: bool
    // ghosts
    var ghostCombo: nat
    var scaredGhosts: seq<GhostName>
    var eyeGhosts: int
    var idleGhosts: seq<GhostName>
    // entities and timers
    var entityList: seq<Entity>
    var pickups: seq<Pickup>
    var activeTimers: seq<Timer>
    var fruitTimer: Option<Timer>
    var ghostCycleTimer: Option<Timer>
    var endIdleTimer: Option<Timer>
    var ghostFlashTimer: Option<Timer>
    var nextTimerId: int
    // flags
    var allowKeyPresses: bool
    var allowPacmanMovement: bool
    var allowPause: bool
    var cutscene: bool
    var firstGame: bool
    var scale: int
    /** The maze layout, set once when the coordinator is built. */
    var mazeArray: seq<seq<char>>
    /** The calls made into ghosts, the fruit, Blinky and the timers, oldest first. */
    var calls: seq<Call>

    /** The high score is never below the points, the lives are never negative, the next id NewTimer
        hands out is never 0, and the level has 1, 2 or 4 players. */
    ghost predicate Valid()
      reads this`highScore, this`points, this`lives, this`nextTimerId, this`pacmenOnLevel
    {
      && highScore >= points
      && lives >= 0
      && nextTimerId >= 1
      && (pacmenOnLevel == 1 || pacmenOnLevel == 2 || pacmenOnLevel == 4)
    }

    /** Once the first game has started the pickups are the fruit followed by the maze's dots and
        pellets: only drawMaze sets them. The maze itself is the fixed layout the constructor stores
        (no method has mazeArray in its frame). Only the constructor, reset and the start button touch
        these fields; every other handler keeps this by its frame. */
    ghost predicate MazeReady()
      reads this`mazeArray, this`firstGame, this`pickups
    {
      !firstGame ==> pickups == [Fruit] + MazePickups(mazeArray)
    }

    /** The scoring fields as one value. */
    function ScoreState(): Scoring.Score
      reads this`points, this`highScore, this`lives, this`extraLifeGiven
    {
      Scoring.Score(points, highScore, lives, extraLifeGiven)
    }

    /** The level configuration fields as one value. */
    function Config(): LevelConfig
      reads this`pacmenOnLevel, this`speedLevel, this`horizontalControlsReversed, this`verticalControlsReversed
    {
      LevelConfig(pacmenOnLevel, speedLevel, horizontalControlsReversed, verticalControlsReversed)
    }

    /** Builds the coordinator for a screen of the given size; the round fields get their values from Reset. */
    constructor (availableHeight: int, availableWidth: int)
      ensures Valid() && MazeReady()
      ensures resetLevel == 1 && firstGame
      ensures scale == DetermineScale(1, availableHeight, availableWidth)
      ensures activeTimers == [] && calls == [] && entityList == [] && pickups == []
      ensures mazeArray == Maze
    {
      mazeArray := Maze;
      resetLevel := 1;
      scale := DetermineScale(1, availableHeight, availableWidth);
      firstGame := true;
      points, highScore, lives, extraLifeGiven := 0, 0, 0, false;
      remainingDots, level, speedLevel, pacmenOnLevel := 0, 1, 1, 4;
      horizontalControlsReversed, verticalControlsReversed := false, false;
      ghostCombo, scaredGhosts, eyeGhosts, idleGhosts := 0, [], 0, [];
      entityList, pickups, activeTimers := [], [], [];
      fruitTimer, ghostCycleTimer, endIdleTimer, ghostFlashTimer := None, None, None, None;
      nextTimerId := 1;
      allowKeyPresses, allowPacmanMovement, allowPause, cutscene := false, false, false, false;
      calls := [];
    }

    // ------------------------------------------------------------ timers

    /** A new single-shot timer with the next free id. */
    method NewTimer(delay: int, action: TimerAction) returns (t: Timer)
      requires Valid()
      modifies this`nextTimerId
      ensures Valid()
      ensures t == Timer(Some(old(nextTimerId)), delay, action) && t.timerId.value != 0
      ensures nextTimerId == old(nextTimerId) + 1
    {
      t := Timer(Some(nextTimerId), delay, action);
      nextTimerId := nextTimerId + 1;
    }

    /** addTimer: appends exactly one entry. */
    method AddTimer(t: Timer)
      modifies this`activeTimers
      ensures activeTimers == old(activeTimers) + [t]
    {
      activeTimers := activeTimers + [t];
    }

    /** removeTimer: clears the timeout and drops every entry with the timer's id, when the timer exists. */
    method RemoveTimer(t: Option<Timer>)
      modifies this`activeTimers, this`calls
      ensures activeTimers == RemoveTimerFrom(old(activeTimers), t)
      ensures calls == old(calls) + ClearCalls(t)
    {
      if TimerExists(t) {
        var id := t.value.timerId.value;
        calls := calls + [ClearTimeout(id)];
        activeTimers := WithoutId(activeTimers, id);
      }
    }

    /** pauseTimer: pauses the timer when it exists. */
    method PauseTimer(t: Option<Timer>)
      modifies this`calls
      ensures calls == old(calls) + PauseCalls(t)
    {
      if TimerExists(t) {
        calls := calls + [PauseCall(t.value.timerId.value)];
      }
    }

    /** resumeTimer: resumes the timer when it exists. */
    method ResumeTimer(t: Option<Timer>)
      modifies this`calls
      ensures calls == old(calls) + ResumeCalls(t)
    {
      if TimerExists(t) {
        calls := calls + [ResumeCall(t.value.timerId.value)];
      }
    }

    /** The four removeTimer calls that deathSequence and advanceLevel both make. */
    method StopRoundTimers()
      modifies this`activeTimers, this`calls
      ensures activeTimers == RemoveRoundTimers(old(activeTimers), fruitTimer, ghostCycleTimer, endIdleTimer, ghostFlashTimer)
      ensures calls == old(calls) + RoundTimerCalls(fruitTimer, ghostCycleTimer, endIdleTimer, ghostFlashTimer)
    {
      ghost var log := calls;
      RemoveTimer(fruitTimer);
      RemoveTimer(ghostCycleTimer);
      AppendAssoc(log, ClearCalls(fruitTimer), ClearCalls(ghostCycleTimer));
      RemoveTimer(endIdleTimer);
      AppendAssoc(log, ClearCalls(fruitTimer) + ClearCalls(ghostCycleTimer), ClearCalls(endIdleTimer));
      RemoveTimer(ghostFlashTimer);
      AppendAssoc(log, ClearCalls(fruitTimer) + ClearCalls(ghostCycleTimer) + ClearCalls(endIdleTimer), ClearCalls(ghostFlashTimer));
    }

    // ------------------------------------------------------------ calls on ghosts

    method CallEach(names: seq<GhostName>, kind: GhostCallKind)
      modifies this`calls
      ensures calls == old(calls) + Broadcast(names, kind)
    {
      var i := 0;
      while i < |names|
        invariant 0 <= i <= |names|
        invariant calls == old(calls) + Broadcast(names[..i], kind)
        modifies this`calls
      {
        assert names[..i + 1][..i] == names[..i];
        calls := calls + [GhostCall(kind, names[i])];
        i := i + 1;
      }
      assert names[..|names|] == names;
    }

    // ------------------------------------------------------------ scoring

    /** awardPoints, tied to the scoring rule Scoring.Award. */
    method AwardPoints(p: int)
      requires Valid()
      modifies this`points, this`highScore, this`lives, this`extraLifeGiven
      ensures Valid()
      ensures ScoreState() == Scoring.Award(old(ScoreState()), p)
    {
      points := points + p;
      if points > highScore {
        highScore := points;
      }
      if points >= Scoring.ExtraLifePoints && !extraLifeGiven {
        extraLifeGiven := true;
        lives := lives + 1;
      }
    }

    // ------------------------------------------------------------ level setup

    /** setupForLevel: applies the level's row of the configuration table and enables exactly the
        pacmen whose index is below the number of players. */
    method SetupForLevel()
      requires Valid()
      modifies this`pacmenOnLevel, this`speedLevel, this`horizontalControlsReversed, this`verticalControlsReversed, this`entityList
      ensures Valid()
      ensures Config() == ConfigForLevel(level)
      ensures entityList == EnablePacmen(old(entityList), pacmenOnLevel)
    {
      pacmenOnLevel := 4;
      speedLevel := 1;
      horizontalControlsReversed := false;
      verticalControlsReversed := false;
      if level == 1 {
        speedLevel := 2;
      } else if level == 2 {
        speedLevel := 5;
      } else if level == 3 {
        speedLevel := 5;
        horizontalControlsReversed := true;
      } else if level == 4 {
        speedLevel := 5;
        horizontalControlsReversed := true;
        verticalControlsReversed := true;
      } else if level == 5 {
        pacmenOnLevel := 2;
        speedLevel := 2;
      } else if level == 6 {
        pacmenOnLevel := 2;
        speedLevel := 5;
      } else if level == 7 {
        pacmenOnLevel := 2;
        speedLevel := 5;
        horizontalControlsReversed := true;
      } else if level == 8 {
        pacmenOnLevel := 2;
        speedLevel := 5;
        horizontalControlsReversed := true;
        verticalControlsReversed := true;
      } else if level == 9 {
        pacmenOnLevel := 1;
        speedLevel := 2;
      } else if level == 10 {
        pacmenOnLevel := 1;
        speedLevel := 5;
      } else if level == 11 {
        pacmenOnLevel := 1;
        speedLevel := 5;
        horizontalControlsReversed := true;
        verticalControlsReversed := true;
      }

      var i := 0;
      while i < |entityList|
        invariant 0 <= i <= |entityList| && |entityList| == |old(entityList)|
        invariant forall j :: 0 <= j < i ==> entityList[j] == EnableFor(old(entityList)[j], pacmenOnLevel)
        invariant forall j :: i <= j < |entityList| ==> entityList[j] == old(entityList)[j]
        modifies this`entityList
      {
        var entity := entityList[i];
        if entity.PacmanEntity? {
          entityList := entityList[i := PacmanEntity(entity.pacmanIndex, entity.pacmanIndex < pacmenOnLevel)];
        }
        i := i + 1;
      }
    }

    /** drawMaze: the pickups become the fruit followed by every dot and pellet of the maze in
        row-major order; each of those is appended to the entity list and counted as remaining. */
    method DrawMaze(maze: seq<seq<char>>)
      modifies this`pickups, this`entityList, this`remainingDots
      ensures pickups == [Fruit] + MazePickups(maze)
      ensures entityList == old(entityList) + AsEntities(MazePickups(maze))
      ensures remainingDots == old(remainingDots) + |MazePickups(maze)|
    {
      pickups, entityList, remainingDots := ScanMaze(maze, entityList, remainingDots);
    }

    /** reset's pass over the pickups on a later game: every dot and pellet is counted again and
        appended to the entity list. */
    method ReAddPickups()
      modifies this`entityList, this`remainingDots
      ensures entityList == old(entityList) + AsEntities(NonFruit(pickups))
      ensures remainingDots == old(remainingDots) + |NonFruit(pickups)|
    {
      var i := 0;
      while i < |pickups|
        invariant 0 <= i <= |pickups|
        invariant entityList == old(entityList) + AsEntities(NonFruit(pickups[..i]))
        invariant remainingDots == old(remainingDots) + |NonFruit(pickups[..i])|
      {
        assert pickups[..i + 1][..i] == pickups[..i];
        if pickups[i] != Fruit {
          AsEntitiesSnoc(NonFruit(pickups[..i]), pickups[i]);
          remainingDots := remainingDots + 1;
          entityList := entityList + [PickupEntity(pickups[i])];
        }
        i := i + 1;
      }
      assert pickups[..|pickups|] == pickups;
    }

    /** reset's dot placement: drawMaze on the first game, the pass over the pickup list afterwards;
        either way the entity list gains exactly the maze's dots and pellets and they are all counted. */
    method PlaceDots()
      requires MazeReady()
      modifies this`pickups, this`entityList, this`remainingDots
      ensures MazeReady()
      ensures pickups == [Fruit] + MazePickups(mazeArray)
      ensures entityList == old(entityList) + AsEntities(MazePickups(mazeArray))
      ensures remainingDots == old(remainingDots) + |MazePickups(mazeArray)|
    {
      MazeHasNoFruit(mazeArray);
      NonFruitKeeps(MazePickups(mazeArray));
      if firstGame {
        DrawMaze(mazeArray);
      } else {
        ReAddPickups();
      }
    }

    /** reset's level part: the entity list is rebuilt from the base entities, configured for the
        start level, and given the level's dots, all of them counted. */
    method RebuildLevel()
      requires Valid() && MazeReady()
      modifies this`level, this`remainingDots, this`entityList, this`pickups, this`pacmenOnLevel,
               this`speedLevel, this`horizontalControlsReversed, this`verticalControlsReversed
      ensures Valid() && MazeReady()
      ensures level == resetLevel && Config() == ConfigForLevel(resetLevel)
      ensures pickups == [Fruit] + MazePickups(mazeArray)
      ensures entityList == EnablePacmen(BaseEntities, pacmenOnLevel) + AsEntities(MazePickups(mazeArray))
      ensures remainingDots == |MazePickups(mazeArray)|
    {
      level := resetLevel;
      remainingDots := 0;
      entityList := BaseEntities;
      SetupForLevel();
      PlaceDots();
    }

    /** reset's first part: the scores, lives, flags and ghost bookkeeping of a new game, and no timers. */
    method ResetDefaults(storedHighScore: nat)
      requires Valid()
      modifies this`activeTimers, this`points, this`lives, this`extraLifeGiven, this`allowKeyPresses, this`allowPacmanMovement,
               this`allowPause, this`cutscene, this`highScore, this`scaredGhosts, this`eyeGhosts
      ensures Valid()
      ensures activeTimers == [] && points == 0 && lives == StartingLives && !extraLifeGiven
      ensures highScore == storedHighScore
      ensures allowKeyPresses && !allowPacmanMovement && !allowPause && cutscene
      ensures scaredGhosts == [] && eyeGhosts == 0
    {
      activeTimers, points, lives, extraLifeGiven := [], 0, StartingLives, false;
      allowKeyPresses, allowPacmanMovement, allowPause, cutscene := true, false, false, true;
      highScore, scaredGhosts, eyeGhosts := storedHighScore, [], 0;
    }

    /** reset: the defaults of a new game, the entity list rebuilt and configured for the start
        level, and the dots placed on the maze (the first game) or re-added from the pickup list;
        either way every game starts with all of the maze's dots and pellets. */
    method Reset(storedHighScore: nat)
      requires Valid() && MazeReady()
      modifies this`activeTimers, this`points, this`speedLevel, this`pacmenOnLevel,
               this`horizontalControlsReversed, this`verticalControlsReversed, this`level, this`lives,
               this`extraLifeGiven, this`remainingDots, this`allowKeyPresses, this`allowPacmanMovement,
               this`allowPause, this`cutscene, this`highScore, this`scaredGhosts, this`eyeGhosts,
               this`entityList, this`pickups
      ensures Valid() && MazeReady()
      ensures activeTimers == [] && points == 0 && level == resetLevel && lives == StartingLives && !extraLifeGiven
      ensures highScore == storedHighScore
      ensures allowKeyPresses && !allowPacmanMovement && !allowPause && cutscene
      ensures scaredGhosts == [] && eyeGhosts == 0
      ensures Config() == ConfigForLevel(resetLevel)
      ensures pickups == [Fruit] + MazePickups(mazeArray)
      ensures entityList == EnablePacmen(BaseEntities, pacmenOnLevel) + AsEntities(MazePickups(mazeArray))
      ensures remainingDots == |MazePickups(mazeArray)|
    {
      ResetDefaults(storedHighScore);
      RebuildLevel();
    }

    // ------------------------------------------------------------ round start

    /** startGameplay: clears the scared and eyes bookkeeping, holds the pacmen, and shows "Ready!"
        (longer at the start of a game) with the level's banner. */
    method StartGameplay(initialStart: bool) returns (screen: ReadyScreen)
      modifies this`scaredGhosts, this`eyeGhosts, this`allowPacmanMovement
      ensures scaredGhosts == [] && eyeGhosts == 0 && !allowPacmanMovement
      ensures screen.delay == (if initialStart then InitialReadyDelay else ReadyDelay)
      ensures screen.banner == DetermineLevelNameAndImg(level)
    {
      scaredGhosts := [];
      eyeGhosts := 0;
      allowPacmanMovement := false;
      var delay := if initialStart then InitialReadyDelay else ReadyDelay;
      screen := ReadyScreen(delay, DetermineLevelNameAndImg(level));
    }

    /** The "Ready!" timer firing: play is on, the ghost cycle starts in scatter mode, and Pinky,
        Inky and Clyde wait in the house to be released in that order. */
    method ReadyElapsed()
      requires Valid()
      modifies this`allowPause, this`cutscene, this`allowPacmanMovement, this`ghostCycleTimer,
               this`idleGhosts, this`endIdleTimer, this`nextTimerId
      ensures Valid()
      ensures allowPause && !cutscene && allowPacmanMovement
      ensures ghostCycleTimer == Some(Timer(Some(old(nextTimerId)), CycleDelay(Scatter), CycleGhosts(Chase)))
      ensures idleGhosts == [Pinky, Inky, Clyde]
      ensures endIdleTimer == Some(Timer(Some(old(nextTimerId) + 1), ReleaseDelay(speedLevel), EndIdle))
      ensures nextTimerId == old(nextTimerId) + 2
    {
      allowPause := true;
      cutscene := false;
      allowPacmanMovement := true;
      GhostCycle(Scatter);
      idleGhosts := [Pinky, Inky, Clyde];
      ReleaseGhost();
    }

    /** ghostCycle: schedules the switch to the other of scatter and chase, after 7 s of scatter or 20 s of chase. */
    method GhostCycle(mode: GhostMode)
      requires Valid()
      modifies this`ghostCycleTimer, this`nextTimerId
      ensures Valid() && nextTimerId == old(nextTimerId) + 1
      ensures ghostCycleTimer == Some(Timer(Some(old(nextTimerId)), CycleDelay(mode), CycleGhosts(NextCycleMode(mode))))
    {
      var delay := if mode == Scatter then 7000 else 20000;
      var nextMode := if mode == Scatter then Chase else Scatter;
      var t := NewTimer(delay, CycleGhosts(nextMode));
      ghostCycleTimer := Some(t);
    }

    /** The ghost-cycle timer firing: every ghost changes to the next mode and the following switch is scheduled. */
    method GhostCycleFired(nextMode: GhostMode)
      requires Valid()
      modifies this`calls, this`ghostCycleTimer, this`nextTimerId
      ensures Valid()
      ensures calls == old(calls) + Broadcast(Ghosts, ChangeMode(nextMode))
      ensures ghostCycleTimer == Some(Timer(Some(old(nextTimerId)), CycleDelay(nextMode), CycleGhosts(NextCycleMode(nextMode))))
      ensures nextTimerId == old(nextTimerId) + 1
    {
      CallEach(Ghosts, ChangeMode(nextMode));
      GhostCycle(nextMode);
    }

    /** releaseGhost: while ghosts wait in the house, schedules the next release after the speed level's delay. */
    method ReleaseGhost()
      requires Valid()
      modifies this`endIdleTimer, this`nextTimerId
      ensures Valid()
      ensures |idleGhosts| > 0 ==> endIdleTimer == Some(Timer(Some(old(nextTimerId)), ReleaseDelay(speedLevel), EndIdle))
                                   && nextTimerId == old(nextTimerId) + 1
      ensures |idleGhosts| == 0 ==> endIdleTimer == old(endIdleTimer) && nextTimerId == old(nextTimerId)
    {
      if |idleGhosts| > 0 {
        var delay := Max((8 - (speedLevel - 1) * 4) * 1000, 0);
        var t := NewTimer(delay, EndIdle);
        endIdleTimer := Some(t);
      }
    }

    /** The release timer firing: the first waiting ghost leaves the house and the queue shifts.
        With an empty queue the source's callback fails; here nothing changes and None is returned. */
    method EndIdleFired() returns (released: Option<GhostName>)
      modifies this`calls, this`idleGhosts
      ensures released.Some? <==> |old(idleGhosts)| > 0
      ensures released.Some? ==> released.value == old(idleGhosts)[0] && idleGhosts == old(idleGhosts)[1..]
                                 && calls == old(calls) + [GhostCall(EndIdleMode, released.value)]
      ensures released.None? ==> idleGhosts == old(idleGhosts) && calls == old(calls)
    {
      if |idleGhosts| > 0 {
        released := Some(idleGhosts[0]);
        calls := calls + [GhostCall(EndIdleMode, idleGhosts[0])];
        idleGhosts := idleGhosts[1..];
      } else {
        released := None;
      }
    }

    // ------------------------------------------------------------ dots and fruit

    /** createFruit: replaces any pending fruit timer, shows the level's fruit and hides it after ten seconds. */
    method CreateFruit()
      requires Valid()
      modifies this`activeTimers, this`calls, this`fruitTimer, this`nextTimerId
      ensures Valid()
      ensures activeTimers == RemoveTimerFrom(old(activeTimers), old(fruitTimer))
      ensures calls == old(calls) + ClearCalls(old(fruitTimer)) + [ShowFruit(FruitPoints(level))]
      ensures fruitTimer == Some(Timer(Some(old(nextTimerId)), FruitDuration, HideFruit))
      ensures nextTimerId == old(nextTimerId) + 1
    {
      RemoveTimer(fruitTimer);
      calls := calls + [ShowFruit(FruitPoints(level))];
      var t := NewTimer(FruitDuration, HideFruit);
      fruitTimer := Some(t);
    }

    /** The fruit timer firing: the fruit is hidden. */
    method HideFruitFired()
      modifies this`calls
      ensures calls == old(calls) + [HideFruitCall]
    {
      calls := calls + [HideFruitCall];
    }

    /** speedUpBlinky: Blinky is sped up. */
    method SpeedUpBlinky()
      modifies this`calls
      ensures calls == old(calls) + [BlinkySpeedUp]
    {
      calls := calls + [BlinkySpeedUp];
    }

    /** dotEaten, tied to the threshold rule Scoring.DotEaten: one dot fewer; the fruit at 174 and
        74; Blinky faster at 40 and 20; at LevelClearRemaining the count drops to 0 and the level ends. */
    method DotEaten() returns (outcome: Scoring.DotOutcome)
      requires Valid()
      modifies this`remainingDots, this`activeTimers, this`calls, this`fruitTimer, this`nextTimerId,
               this`allowPause, this`cutscene, this`allowKeyPresses
      ensures Valid()
      ensures outcome == Scoring.DotEaten(old(remainingDots)) && remainingDots == outcome.remaining
      ensures fruitTimer == if outcome.createFruit then Some(Timer(Some(old(nextTimerId)), FruitDuration, HideFruit)) else old(fruitTimer)
      ensures nextTimerId == old(nextTimerId) + (if outcome.createFruit then 1 else 0)
      ensures activeTimers ==
        if outcome.createFruit then RemoveTimerFrom(old(activeTimers), old(fruitTimer))
        else if outcome.advanceLevel then RemoveRoundTimers(old(activeTimers), fruitTimer, ghostCycleTimer, endIdleTimer, ghostFlashTimer)
        else old(activeTimers)
      ensures calls == old(calls) +
        if outcome.createFruit then ClearCalls(old(fruitTimer)) + [ShowFruit(FruitPoints(level))]
        else if outcome.speedUpBlinky then [BlinkySpeedUp]
        else if outcome.advanceLevel then RoundTimerCalls(fruitTimer, ghostCycleTimer, endIdleTimer, ghostFlashTimer)
        else []
      ensures outcome.advanceLevel ==> !allowPause && cutscene && !allowKeyPresses
      ensures !outcome.advanceLevel ==> allowPause == old(allowPause) && cutscene == old(cutscene) && allowKeyPresses == old(allowKeyPresses)
    {
      remainingDots := remainingDots - 1;
      var fruit := remainingDots == 174 || remainingDots == 74;
      var speedUp := remainingDots == 40 || remainingDots == 20;
      ghost var log := calls;
      if fruit {
        CreateFruit();
        AppendAssoc(log, ClearCalls(old(fruitTimer)), [ShowFruit(FruitPoints(level))]);
      }
      if speedUp {
        SpeedUpBlinky();
      }
      var advance := remainingDots == Scoring.LevelClearRemaining;
      if advance {
        remainingDots := 0;
        AdvanceLevel();
      }
      if !fruit && !speedUp && !advance {
        assert calls == log + [];
      }
      outcome := Scoring.DotOutcome(remainingDots, fruit, speedUp, advance);
    }

    // ------------------------------------------------------------ power-up and ghosts

    /** flashGhosts: on the last flash the scared ghosts stop being scared and the set empties;
        before it, while any ghost is scared, they change colour and the next flash is scheduled. */
    method FlashGhosts(flashes: int, maxFlashes: int)
      requires Valid()
      modifies this`calls, this`scaredGhosts, this`ghostFlashTimer, this`nextTimerId
      ensures Valid()
      ensures flashes == maxFlashes ==>
        && calls == old(calls) + Broadcast(old(scaredGhosts), EndScared) && scaredGhosts == []
        && ghostFlashTimer == old(ghostFlashTimer) && nextTimerId == old(nextTimerId)
      ensures flashes != maxFlashes && |old(scaredGhosts)| > 0 ==>
        && calls == old(calls) + Broadcast(scaredGhosts, ToggleScaredColor) && scaredGhosts == old(scaredGhosts)
        && ghostFlashTimer == Some(Timer(Some(old(nextTimerId)), FlashInterval, FlashStep(flashes + 1, maxFlashes)))
        && nextTimerId == old(nextTimerId) + 1
      ensures flashes != maxFlashes && |old(scaredGhosts)| == 0 ==>
        calls == old(calls) && scaredGhosts == old(scaredGhosts) && ghostFlashTimer == old(ghostFlashTimer) && nextTimerId == old(nextTimerId)
    {
      if flashes == maxFlashes {
        CallEach(scaredGhosts, EndScared);
        scaredGhosts := [];
      } else if |scaredGhosts| > 0 {
        CallEach(scaredGhosts, ToggleScaredColor);
        var t := NewTimer(FlashInterval, FlashStep(flashes + 1, maxFlashes));
        ghostFlashTimer := Some(t);
      }
    }

    /** powerUp: replaces the flash timer, resets the combo, scares exactly the ghosts not in eyes
        mode, and schedules the flashing after the speed level's power duration. The ghosts are
        the coordinator's four, in order, with their current modes. */
    method PowerUp(ghosts: seq<Ghost>)
      requires |ghosts| == |Ghosts| && forall i :: 0 <= i < |ghosts| ==> ghosts[i].name == Ghosts[i]
      requires Valid()
      modifies this`activeTimers, this`calls, this`ghostCombo, this`scaredGhosts, this`ghostFlashTimer, this`nextTimerId
      ensures Valid()
      ensures ghostCombo == 0
      ensures scaredGhosts == ScaredNames(ghosts)
      ensures activeTimers == RemoveTimerFrom(old(activeTimers), old(ghostFlashTimer))
      ensures calls == old(calls) + ClearCalls(old(ghostFlashTimer)) + Broadcast(scaredGhosts, BecomeScared)
      ensures ghostFlashTimer == Some(Timer(Some(old(nextTimerId)), PowerDuration(speedLevel), FlashStep(0, MaxFlashes)))
      ensures nextTimerId == old(nextTimerId) + 1
    {
      RemoveTimer(ghostFlashTimer);
      ghostCombo := 0;
      var scared := [];
      var i := 0;
      while i < |ghosts|
        invariant 0 <= i <= |ghosts|
        invariant scared == ScaredNames(ghosts[..i])
      {
        assert ghosts[..i + 1][..i] == ghosts[..i];
        if ghosts[i].mode != Eyes {
          scared := scared + [ghosts[i].name];
        }
        i := i + 1;
      }
      assert ghosts[..|ghosts|] == ghosts;
      scaredGhosts := scared;
      CallEach(scaredGhosts, BecomeScared);
      var powerDuration := Max((7 - speedLevel) * 1000, 0);
      var t := NewTimer(powerDuration, FlashStep(0, MaxFlashes));
      ghostFlashTimer := Some(t);
    }

    /** What eatGhost pauses, in its order: the flash, cycle and fruit timers, then every ghost. */
    method PauseRound()
      modifies this`calls
      ensures calls == old(calls) + PauseCalls(ghostFlashTimer) + PauseCalls(ghostCycleTimer) + PauseCalls(fruitTimer)
                                  + Broadcast(Ghosts, SetPaused(true))
    {
      PauseTimer(ghostFlashTimer);
      PauseTimer(ghostCycleTimer);
      PauseTimer(fruitTimer);
      CallEach(Ghosts, SetPaused(true));
    }

    /** eatGhost: pauses the flash, cycle and fruit timers and the ghosts, takes the eaten ghost out
        of the scared set, counts one more pair of eyes, raises the combo and awards its points, and
        holds the pacmen. */
    method EatGhost(name: GhostName)
      requires Valid()
      modifies this`calls, this`scaredGhosts, this`eyeGhosts, this`ghostCombo, this`points,
               this`highScore, this`lives, this`extraLifeGiven, this`allowPacmanMovement
      ensures Valid()
      ensures calls == old(calls) + PauseCalls(ghostFlashTimer) + PauseCalls(ghostCycleTimer) + PauseCalls(fruitTimer)
                                  + Broadcast(Ghosts, SetPaused(true))
      ensures scaredGhosts == WithoutGhost(old(scaredGhosts), name)
      ensures eyeGhosts == old(eyeGhosts) + 1
      ensures ghostCombo == old(ghostCombo) + 1
      ensures ScoreState() == Scoring.Award(old(ScoreState()), DetermineComboPoints(ghostCombo))
      ensures !allowPacmanMovement
    {
      PauseRound();
      scaredGhosts := WithoutGhost(scaredGhosts, name);
      eyeGhosts := eyeGhosts + 1;
      ghostCombo := ghostCombo + 1;
      var comboPoints := DetermineComboPoints(ghostCombo);
      AwardPoints(comboPoints);
      allowPacmanMovement := false;
    }

    /** The one-second pause after eating a ghost ends: the three timers resume, the pacmen move
        again and every ghost is unpaused. */
    method EatGhostPauseDone()
      modifies this`calls, this`allowPacmanMovement
      ensures calls == old(calls) + ResumeCalls(ghostFlashTimer) + ResumeCalls(ghostCycleTimer) + ResumeCalls(fruitTimer)
                                  + Broadcast(Ghosts, SetPaused(false))
      ensures allowPacmanMovement
    {
      ResumeTimer(ghostFlashTimer);
      ResumeTimer(ghostCycleTimer);
      ResumeTimer(fruitTimer);
      allowPacmanMovement := true;
      CallEach(Ghosts, SetPaused(false));
    }

    /** restoreGhost: one pair of eyes fewer. */
    method RestoreGhost()
      modifies this`eyeGhosts
      ensures eyeGhosts == old(eyeGhosts) - 1
    {
      eyeGhosts := eyeGhosts - 1;
    }

    // ------------------------------------------------------------ death

    /** deathSequence: pausing and key presses are switched off and the round's four timers are removed. */
    method DeathSequence()
      modifies this`allowPause, this`cutscene, this`activeTimers, this`calls, this`allowKeyPresses
      ensures !allowPause && cutscene && !allowKeyPresses
      ensures activeTimers == RemoveRoundTimers(old(activeTimers), fruitTimer, ghostCycleTimer, endIdleTimer, ghostFlashTimer)
      ensures calls == old(calls) + RoundTimerCalls(fruitTimer, ghostCycleTimer, endIdleTimer, ghostFlashTimer)
    {
      allowPause := false;
      cutscene := true;
      StopRoundTimers();
      allowKeyPresses := false;
    }

    /** The death animation's timer firing: the dying pacman's animation is prepared, then a life is
        used up if one is left; otherwise the game is over. */
    method DeathAnimationDone(pacman: int) returns (gameOver: bool)
      requires Valid()
      modifies this`lives, this`calls
      ensures Valid()
      ensures calls == old(calls) + [PrepDeathAnimation(pacman)]
      ensures gameOver <==> old(lives) == 0
      ensures lives == if gameOver then old(lives) else old(lives) - 1
    {
      calls := calls + [PrepDeathAnimation(pacman)];
      if lives > 0 {
        lives := lives - 1;
        gameOver := false;
      } else {
        gameOver := true;
      }
    }

    /** The maze cover lifting after a death: key presses come back, the fruit is hidden and the round restarts. */
    method DeathRestart() returns (screen: ReadyScreen)
      modifies this`allowKeyPresses, this`calls, this`scaredGhosts, this`eyeGhosts, this`allowPacmanMovement
      ensures allowKeyPresses && calls == old(calls) + [HideFruitCall]
      ensures scaredGhosts == [] && eyeGhosts == 0 && !allowPacmanMovement
      ensures screen == ReadyScreen(ReadyDelay, DetermineLevelNameAndImg(level))
    {
      allowKeyPresses := true;
      calls := calls + [HideFruitCall];
      screen := StartGameplay(false);
    }

    // ------------------------------------------------------------ level advance

    /** advanceLevel: pausing and key presses are switched off and the round's four timers are removed. */
    method AdvanceLevel()
      modifies this`allowPause, this`cutscene, this`allowKeyPresses, this`activeTimers, this`calls
      ensures !allowPause && cutscene && !allowKeyPresses
      ensures activeTimers == RemoveRoundTimers(old(activeTimers), fruitTimer, ghostCycleTimer, endIdleTimer, ghostFlashTimer)
      ensures calls == old(calls) + RoundTimerCalls(fruitTimer, ghostCycleTimer, endIdleTimer, ghostFlashTimer)
    {
      allowPause := false;
      cutscene := true;
      allowKeyPresses := false;
      StopRoundTimers();
    }

    /** The recount after a level change: every dot and pellet still in the entity list is counted. */
    method RecountDots()
      modifies this`remainingDots
      ensures remainingDots == old(remainingDots) + CountDots(entityList)
    {
      var count := remainingDots;
      var i := 0;
      while i < |entityList|
        invariant 0 <= i <= |entityList|
        invariant count == old(remainingDots) + CountDots(entityList[..i])
      {
        assert entityList[..i + 1][..i] == entityList[..i];
        var entity := entityList[i];
        if entity.PickupEntity? && entity.pickup != Fruit {
          count := count + 1;
        }
        i := i + 1;
      }
      assert entityList[..|entityList|] == entityList;
      remainingDots := count;
    }

    /** The end of the maze-flash sequence: the level number goes up; past the final level the
        finale starts (None); otherwise the new level is configured, every dot in the entity list is
        counted again and the round restarts. */
    method CompleteLevelAdvance() returns (next: Option<ReadyScreen>)
      requires Valid()
      modifies this`level, this`pacmenOnLevel, this`speedLevel, this`horizontalControlsReversed,
               this`verticalControlsReversed, this`entityList, this`allowKeyPresses, this`remainingDots,
               this`scaredGhosts, this`eyeGhosts, this`allowPacmanMovement
      ensures Valid()
      ensures level == old(level) + 1
      ensures next.None? <==> level > FinalLevel
      ensures next.None? ==> Config() == old(Config()) && entityList == old(entityList)
                             && remainingDots == old(remainingDots) && allowKeyPresses == old(allowKeyPresses)
      ensures next.Some? ==>
        && Config() == ConfigForLevel(level)
        && entityList == EnablePacmen(old(entityList), pacmenOnLevel)
        && remainingDots == old(remainingDots) + CountDots(entityList)
        && allowKeyPresses && scaredGhosts == [] && eyeGhosts == 0 && !allowPacmanMovement
        && next.value == ReadyScreen(ReadyDelay, DetermineLevelNameAndImg(level))
    {
      level := level + 1;
      if level > FinalLevel {
        next := None;
      } else {
        SetupForLevel();
        allowKeyPresses := true;
        RecountDots();
        var screen := StartGameplay(false);
        next := Some(screen);
      }
    }

    // ------------------------------------------------------------ menu

    /** levelButtonClick: the level the next game starts at. */
    method LevelButtonClick(startLevel: int)
      modifies this`resetLevel
      ensures resetLevel == startLevel
    {
      resetLevel := startLevel;
    }

    /** startButtonClick: resets the game (placing the dots on the first game only) and starts it
        with the long "Ready!". */
    method StartButtonClick(storedHighScore: nat) returns (screen: ReadyScreen)
      requires Valid() && MazeReady()
      modifies this`activeTimers, this`points, this`speedLevel, this`pacmenOnLevel,
               this`horizontalControlsReversed, this`verticalControlsReversed, this`level, this`lives,
               this`extraLifeGiven, this`remainingDots, this`allowKeyPresses, this`allowPacmanMovement,
               this`allowPause, this`cutscene, this`highScore, this`scaredGhosts, this`eyeGhosts,
               this`entityList, this`pickups, this`firstGame
      ensures Valid() && MazeReady()
      ensures !firstGame
      ensures activeTimers == [] && points == 0 && level == resetLevel && lives == StartingLives && !extraLifeGiven
      ensures highScore == storedHighScore && Config() == ConfigForLevel(resetLevel)
      ensures pickups == [Fruit] + MazePickups(mazeArray)
      ensures entityList == EnablePacmen(BaseEntities, pacmenOnLevel) + AsEntities(MazePickups(mazeArray))
      ensures remainingDots == |MazePickups(mazeArray)|
      ensures screen == ReadyScreen(InitialReadyDelay, DetermineLevelNameAndImg(resetLevel))
    {
      Reset(storedHighScore);
      if firstGame {
        firstGame := false;
      }
      screen := StartGameplay(true);
    }

    // ------------------------------------------------------------ input

    /** A gamepad direction, as controllerToPacmanMapMove and changeDirection pass it on: it only
        ever reaches a pacman that plays on this level, and the pacman receives the direction
        that the level's reversal turns into the pressed one. */
    function ControllerMove(controller: int, direction: Direction, engineRunning: bool): (c: Option<Command>)
      reads this
      ensures c.Some? ==> 0 <= c.value.pacman < pacmenOnLevel && allowKeyPresses && engineRunning
      ensures c.Some? ==> Steer(c.value.direction, horizontalControlsReversed, verticalControlsReversed) == direction
      ensures c.Some? ==> c.value.allowMovement == allowPacmanMovement
    {
      match ControllerRoute(controller, direction, pacmenOnLevel)
      case None => None
      case Some(route) =>
        ChangeDirection(route.pacman, route.direction, allowKeyPresses, engineRunning,
                        horizontalControlsReversed, verticalControlsReversed, allowPacmanMovement)
    }

    /** A key press, as handleKeyDown and changeDirection pass it on: only the arrow keys and WASD
        steer, only pacmen 0 and 1, and only while key presses are allowed and the engine runs. */
    function KeyMove(keyCode: int, engineRunning: bool): (c: Option<Command>)
      reads this
      ensures c.Some? <==> MovementKey(keyCode).Some? && allowKeyPresses && engineRunning
      ensures c.Some? ==> 0 <= c.value.pacman <= 1
      ensures c.Some? ==> Steer(c.value.direction, horizontalControlsReversed, verticalControlsReversed) == MovementKey(keyCode).value
    {
      match KeyDown(keyCode)
      case Move(pacman, direction) =>
        ChangeDirection(pacman, direction, allowKeyPresses, engineRunning,
                        horizontalControlsReversed, verticalControlsReversed, allowPacmanMovement)
      case _ => None
    }
  }
}
