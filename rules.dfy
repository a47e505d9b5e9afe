/** The coordinator's small pure rules: siren tier, ghost-combo score, level banner,
    fruit value, power-up and ghost-release delays, the scatter/chase cycle, the
    per-level configuration table and the screen-scale search. */
module Rules {
  import opened GameTypes
  import MazeLayout

  function Max(a: int, b: int): int { if a >= b then a else b }

  // ---------------------------------------------------------------- siren

  /** The ambience track for the number of dots left: louder sirens as the board empties. */
  function DetermineSiren(remainingDots: int): string
  {
    if remainingDots < 20 then "siren_3"
    else if remainingDots < 40 then "siren_2"
    else if remainingDots < 80 then "siren_1"
    else ""
  }

  /** The number in a siren track's name; 0 for silence. */
  function SirenTier(siren: string): nat
  {
    if siren == "siren_3" then 3
    else if siren == "siren_2" then 2
    else if siren == "siren_1" then 1
    else 0
  }

  /** Fewer remaining dots never select a quieter siren, and there is no siren at 80 dots or more. */
  lemma SirenRisesAsDotsFall(fewer: int, more: int)
    requires fewer <= more
    ensures SirenTier(DetermineSiren(fewer)) >= SirenTier(DetermineSiren(more))
    ensures DetermineSiren(more) == "" <==> more >= 80
    ensures SirenTier(DetermineSiren(fewer)) == (if fewer < 20 then 3 else if fewer < 40 then 2 else if fewer < 80 then 1 else 0)
  {
    assert "siren_3"[6] == '3' && "siren_2"[6] == '2' && "siren_1"[6] == '1';
    assert |""| == 0 < |"siren_1"|;
  }

  // ---------------------------------------------------------------- ghost combo

  function Pow2(k: nat): (r: nat)
    ensures r >= 1
  {
    if k == 0 then 1 else 2 * Pow2(k - 1)
  }

  /** Points for eating a ghost when the combo counter stands at ghostCombo: 100 * 2^ghostCombo. */
  function DetermineComboPoints(ghostCombo: nat): (points: nat)
    ensures points >= 100
    ensures points % 100 == 0
  {
    100 * Pow2(ghostCombo)
  }

  /** Each further ghost in the same power-up is worth twice the previous one. */
  lemma ComboDoubles(ghostCombo: nat)
    ensures DetermineComboPoints(ghostCombo + 1) == 2 * DetermineComboPoints(ghostCombo)
  {
  }

  /** The combo is incremented before scoring, so the first four ghosts of a power-up give 200, 400, 800, 1600. */
  lemma FourGhostCombo()
    ensures DetermineComboPoints(1) == 200 && DetermineComboPoints(2) == 400
    ensures DetermineComboPoints(3) == 800 && DetermineComboPoints(4) == 1600
  {
  }

  /** Total awarded for the first k ghosts eaten since the last power pellet. */
  function ComboTotal(k: nat): nat
  {
    if k == 0 then 0 else ComboTotal(k - 1) + DetermineComboPoints(k)
  }

  /** Eating k ghosts in one power-up awards 200 * (2^k - 1) points in all (3000 for all four). */
  lemma {:induction false} ComboTotalClosedForm(k: nat)
    ensures ComboTotal(k) == 200 * (Pow2(k) - 1)
  {
    if k > 0 {
      ComboTotalClosedForm(k - 1);
      assert Pow2(k) == 2 * Pow2(k - 1);
    }
  }

  // ---------------------------------------------------------------- level banner

  const KidsImageDir: string := "app/style/graphics/kids/"

  function KidImage(file: string): string { KidsImageDir + file + ".png" }

  /** The name and pictures shown for a level; levels outside 1..11 show their number and no picture. */
  datatype LevelBanner = Kid(name: string, image1: string, image2: string) | Numbered(level: int)

  function DetermineLevelNameAndImg(level: int): (banner: LevelBanner)
    ensures banner.Kid? <==> 1 <= level <= 11
    ensures banner.Numbered? ==> banner.level == level
    ensures banner.Kid? ==> KidsImageDir <= banner.image1 && KidsImageDir <= banner.image2 && banner.name != ""
  {
    if level == 1 then Kid("Lachlan", KidImage("Lachlan"), KidImage("Lachlan"))
    else if level == 2 then Kid("Joe", KidImage("Joe"), KidImage("Joe"))
    else if level == 3 then Kid("Ruby", KidImage("Ruby"), KidImage("Ruby"))
    else if level == 4 then Kid("Olive", KidImage("Olive"), KidImage("Olive"))
    else if level == 5 then Kid("Jesse", KidImage("Jesse"), KidImage("Jesse"))
    else if level == 6 then Kid("Max", KidImage("Max"), KidImage("Max"))
    else if level == 7 then Kid("Isla", KidImage("Isla"), KidImage("Isla"))
    else if level == 8 then Kid("Milly", KidImage("Milly"), KidImage("Milly"))
    else if level == 9 then Kid("Grandma", KidImage("Grandma"), KidImage("Grandma"))
    else if level == 10 then Kid("Basil", KidImage("Basil2"), KidImage("Basil1"))
    else if level == 11 then Kid("Final!", KidImage("Basil2"), KidImage("Basil1"))
    else Numbered(level)
  }

  /** Levels 1 to 9 show one picture twice; the last two levels show two different pictures. */
  lemma BannerPicturesPaired(level: int)
    requires 1 <= level <= 11
    ensures DetermineLevelNameAndImg(level).image1 == DetermineLevelNameAndImg(level).image2 <==> level <= 9
  {
    if level >= 10 {
      var b := DetermineLevelNameAndImg(level);
      assert b.image1[|KidsImageDir| + 5] == '2' && b.image2[|KidsImageDir| + 5] == '1';
    }
  }

  // ---------------------------------------------------------------- fruit

  /** The fruit's value on a level: the table for levels 1..8, and 5000 for any other level. */
  function FruitPoints(level: int): (points: int)
    ensures 100 <= points <= 5000
    ensures !(1 <= level <= 8) ==> points == 5000
  {
    if level == 1 then 100
    else if level == 2 then 300
    else if level == 3 then 500
    else if level == 4 then 700
    else if level == 5 then 1000
    else if level == 6 then 2000
    else if level == 7 then 3000
    else if level == 8 then 5000
    else 5000
  }

  /** From level 1 on, a later level's fruit is never worth less. */
  lemma FruitPointsNonDecreasing(earlier: int, later: int)
    requires 1 <= earlier <= later
    ensures FruitPoints(earlier) <= FruitPoints(later)
  {
  }

  // ---------------------------------------------------------------- delays

  /** How long ghosts stay scared before they start flashing: max((7 - speedLevel) * 1000, 0) ms. */
  function PowerDuration(speedLevel: int): (ms: int)
    ensures ms >= 0 && ms % 1000 == 0
    ensures ms == 0 <==> speedLevel >= 7
  {
    Max((7 - speedLevel) * 1000, 0)
  }

  /** A faster level never gives a longer power-up. */
  lemma PowerDurationShrinks(slower: int, faster: int)
    requires slower <= faster
    ensures PowerDuration(faster) <= PowerDuration(slower)
  {
  }

  /** Delay before the next idle ghost leaves the ghost house: max((8 - (speedLevel - 1) * 4) * 1000, 0) ms. */
  function ReleaseDelay(speedLevel: int): (ms: int)
    ensures ms >= 0 && ms % 1000 == 0
    ensures ms == 0 <==> speedLevel >= 3
  {
    Max((8 - (speedLevel - 1) * 4) * 1000, 0)
  }

  /** The release delays of the configured speeds, and that they never grow with speed. */
  lemma ReleaseDelayBySpeed(slower: int, faster: int)
    requires slower <= faster
    ensures ReleaseDelay(faster) <= ReleaseDelay(slower)
    ensures ReleaseDelay(1) == 8000 && ReleaseDelay(2) == 4000 && ReleaseDelay(5) == 0
  {
  }

  // ---------------------------------------------------------------- scatter / chase cycle

  /** How long the ghosts stay in the given cycle mode: 7 s of scatter, 20 s otherwise. */
  function CycleDelay(mode: GhostMode): (ms: int)
    ensures ms == 7000 || ms == 20000
  {
    if mode == Scatter then 7000 else 20000
  }

  /** The mode the cycle switches to next: chase after scatter, scatter after anything else. */
  function NextCycleMode(mode: GhostMode): (next: GhostMode)
    ensures next == Scatter || next == Chase
  {
    if mode == Scatter then Chase else Scatter
  }

  /** Scatter and chase alternate: two switches return to the starting mode. */
  lemma CycleAlternates(mode: GhostMode)
    requires mode == Scatter || mode == Chase
    ensures NextCycleMode(mode) != mode
    ensures NextCycleMode(NextCycleMode(mode)) == mode
  {
  }

  /** The mode in force after `switches` switches of a cycle started in `mode`. */
  function ModeAfter(mode: GhostMode, switches: nat): GhostMode
    decreases switches
  {
    if switches == 0 then mode else ModeAfter(NextCycleMode(mode), switches - 1)
  }

  /** Milliseconds from the start of a cycle begun in `mode` until its `switches`-th switch. */
  function SwitchTime(mode: GhostMode, switches: nat): int
    decreases switches
  {
    if switches == 0 then 0 else CycleDelay(mode) + SwitchTime(NextCycleMode(mode), switches - 1)
  }

  /** A round's cycle starts in scatter; every 27 s (7 s scatter + 20 s chase) it is back in scatter. */
  lemma {:induction false} CyclePeriod(periods: nat)
    ensures SwitchTime(Scatter, 2 * periods) == 27000 * periods
    ensures ModeAfter(Scatter, 2 * periods) == Scatter
    ensures ModeAfter(Scatter, 2 * periods + 1) == Chase
    ensures SwitchTime(Scatter, 2 * periods + 1) == 27000 * periods + 7000
  {
    if periods > 0 {
      CyclePeriod(periods - 1);
      var k := 2 * (periods - 1);
      assert SwitchTime(Scatter, k + 2) == 7000 + SwitchTime(Chase, k + 1) == 27000 + SwitchTime(Scatter, k);
      assert ModeAfter(Scatter, k + 2) == ModeAfter(Chase, k + 1) == ModeAfter(Scatter, k);
      assert ModeAfter(Scatter, k + 3) == ModeAfter(Chase, k + 2) == ModeAfter(Scatter, k + 1);
      assert SwitchTime(Scatter, k + 3) == 7000 + SwitchTime(Chase, k + 2) == 27000 + SwitchTime(Scatter, k + 1);
    }
  }

  // ---------------------------------------------------------------- level configuration

  /** Players on the level, ghost speed tier and the two control-reversal flags. */
  datatype LevelConfig = LevelConfig(pacmen: int, speedLevel: int, horizontalReversed: bool, verticalReversed: bool)

  /** The configuration any level outside 1..11 falls back to. */
  const DefaultConfig: LevelConfig := LevelConfig(4, 1, false, false)

  function ConfigForLevel(level: int): (c: LevelConfig)
    ensures c.pacmen == 1 || c.pacmen == 2 || c.pacmen == 4
    ensures c.speedLevel == 1 || c.speedLevel == 2 || c.speedLevel == 5
    ensures c.verticalReversed ==> c.horizontalReversed
  {
    if level == 1 then LevelConfig(4, 2, false, false)
    else if level == 2 then LevelConfig(4, 5, false, false)
    else if level == 3 then LevelConfig(4, 5, true, false)
    else if level == 4 then LevelConfig(4, 5, true, true)
    else if level == 5 then LevelConfig(2, 2, false, false)
    else if level == 6 then LevelConfig(2, 5, false, false)
    else if level == 7 then LevelConfig(2, 5, true, false)
    else if level == 8 then LevelConfig(2, 5, true, true)
    else if level == 9 then LevelConfig(1, 2, false, false)
    else if level == 10 then LevelConfig(1, 5, false, false)
    else if level == 11 then LevelConfig(1, 5, true, true)
    else DefaultConfig
  }

  /** Levels 1-4 have four players, 5-8 two, 9-11 one; every other level falls back to the default. */
  lemma PlayersPerLevel(level: int)
    ensures 1 <= level <= 4 ==> ConfigForLevel(level).pacmen == 4
    ensures 5 <= level <= 8 ==> ConfigForLevel(level).pacmen == 2
    ensures 9 <= level <= 11 ==> ConfigForLevel(level).pacmen == 1
    ensures !(1 <= level <= 11) ==> ConfigForLevel(level) == DefaultConfig
  {
  }

  /** Which levels reverse the controls. */
  lemma ReversalTable(level: int)
    ensures ConfigForLevel(level).horizontalReversed <==> level in {3, 4, 7, 8, 11}
    ensures ConfigForLevel(level).verticalReversed <==> level in {4, 8, 11}
  {
  }

  /** Levels 5-8 replay levels 1-4 with two players; each block starts at speed 2. */
  lemma TwoPlayerLevelsRepeat(level: int)
    requires 1 <= level <= 4
    ensures ConfigForLevel(level + 4) == ConfigForLevel(level).(pacmen := 2)
    ensures ConfigForLevel(level).speedLevel == (if level == 1 then 2 else 5)
  {
  }

  // ---------------------------------------------------------------- screen scale

  const TileSize: int := 8
  /** Maze rows plus five rows of score and status display. */
  const MazeTileHeight: int := MazeLayout.MazeRows + 5
  const MazeTileWidth: int := MazeLayout.MazeColumns

  /** Whether the maze drawn with tiles of TileSize * scale pixels fits strictly inside the screen. */
  predicate Fits(scale: int, availableHeight: int, availableWidth: int)
  {
    TileSize * scale * MazeTileHeight < availableHeight && TileSize * scale * MazeTileWidth < availableWidth
  }

  /** Starting from `scale`, the last scale before the first one that no longer fits. */
  function DetermineScale(scale: int, availableHeight: int, availableWidth: int): (r: int)
    ensures r >= scale - 1
    ensures forall k :: scale <= k <= r ==> Fits(k, availableHeight, availableWidth)
    ensures !Fits(r + 1, availableHeight, availableWidth)
    decreases availableHeight - 288 * scale
  {
    if Fits(scale, availableHeight, availableWidth) then
      DetermineScale(scale + 1, availableHeight, availableWidth)
    else
      scale - 1
  }

  lemma FitsShrinks(small: int, large: int, availableHeight: int, availableWidth: int)
    requires 0 <= small <= large
    requires Fits(large, availableHeight, availableWidth)
    ensures Fits(small, availableHeight, availableWidth)
  {
  }

  /** The search from scale 1 returns the largest scale at which the maze fits (0 if none does). */
  lemma LargestFittingScale(availableHeight: int, availableWidth: int, k: int)
    requires k >= 1 && Fits(k, availableHeight, availableWidth)
    ensures k <= DetermineScale(1, availableHeight, availableWidth)
  {
    var r := DetermineScale(1, availableHeight, availableWidth);
    if r + 1 <= k {
      FitsShrinks(r + 1, k, availableHeight, availableWidth);
    }
  }
}
