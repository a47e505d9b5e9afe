/** Score keeping (points, high score and the one extra life) and the remaining-dot thresholds. */
module Scoring {

  /** The score at which the single extra life is granted. */
  const ExtraLifePoints: int := 10000

  /** The scoring part of the round state. */
  datatype Score = Score(points: int, highScore: int, lives: int, extraLifeGiven: bool)

  /** awardPoints: adds the points, raises the high score when it is beaten, and grants the extra
      life the first time the score reaches ExtraLifePoints. */
  function Award(s: Score, p: int): (r: Score)
    ensures r.points == s.points + p
    ensures r.highScore >= s.highScore && r.highScore >= r.points
    ensures r.highScore == s.highScore || r.highScore == r.points
    ensures r.extraLifeGiven <==> s.extraLifeGiven || r.points >= ExtraLifePoints
    ensures r.lives == s.lives + (if r.extraLifeGiven && !s.extraLifeGiven then 1 else 0)
  {
    var points := s.points + p;
    var highScore := if points > s.highScore then points else s.highScore;
    if points >= ExtraLifePoints && !s.extraLifeGiven then
      Score(points, highScore, s.lives + 1, true)
    else
      Score(points, highScore, s.lives, s.extraLifeGiven)
  }

  /** A series of awardPoints events, in order. */
  function AwardAll(s: Score, ps: seq<int>): Score
    decreases |ps|
  {
    if ps == [] then s else AwardAll(Award(s, ps[0]), ps[1..])
  }

  function Sum(ps: seq<int>): int
  {
    if ps == [] then 0 else ps[0] + Sum(ps[1..])
  }

  /** The score after the first k awards of ps. */
  function PointsAfter(start: int, ps: seq<int>, k: nat): int
    requires k <= |ps|
  {
    start + Sum(ps[..k])
  }

  lemma PrefixSum(ps: seq<int>, k: nat)
    requires 0 < k <= |ps|
    ensures Sum(ps[..k]) == ps[0] + Sum(ps[1..][..k - 1])
  {
    assert ps[..k][1..] == ps[1..][..k - 1];
  }

  /** Over any series of awards: the points are the running total; the extra life is granted
      exactly when some intermediate score reaches ExtraLifePoints and was not granted before, and
      then exactly one life is added; the high score is the largest of the old high score and
      every intermediate score. */
  lemma {:induction false} AwardSeries(s: Score, ps: seq<int>)
    ensures AwardAll(s, ps).points == s.points + Sum(ps)
    ensures AwardAll(s, ps).extraLifeGiven <==>
      s.extraLifeGiven || exists k :: 0 < k <= |ps| && PointsAfter(s.points, ps, k) >= ExtraLifePoints
    ensures AwardAll(s, ps).lives == s.lives + (if AwardAll(s, ps).extraLifeGiven && !s.extraLifeGiven then 1 else 0)
    ensures AwardAll(s, ps).highScore >= s.highScore
    ensures forall k :: 0 < k <= |ps| ==> AwardAll(s, ps).highScore >= PointsAfter(s.points, ps, k)
    ensures AwardAll(s, ps).highScore == s.highScore
            || exists k :: 0 < k <= |ps| && AwardAll(s, ps).highScore == PointsAfter(s.points, ps, k)
    decreases |ps|
  {
    if ps != [] {
      var s1 := Award(s, ps[0]);
      var rest := ps[1..];
      AwardSeries(s1, rest);
      var r := AwardAll(s, ps);
      assert r == AwardAll(s1, rest);
      forall k | 0 < k <= |ps|
        ensures PointsAfter(s.points, ps, k) == if k == 1 then s1.points else PointsAfter(s1.points, rest, k - 1)
      {
        PrefixSum(ps, k);
      }
      assert PointsAfter(s.points, ps, 1) == s1.points;
      if r.extraLifeGiven && !s.extraLifeGiven {
        if !s1.extraLifeGiven {
          var k' :| 0 < k' <= |rest| && PointsAfter(s1.points, rest, k') >= ExtraLifePoints;
          assert PointsAfter(s.points, ps, k' + 1) >= ExtraLifePoints;
        }
      }
      if exists k :: 0 < k <= |ps| && PointsAfter(s.points, ps, k) >= ExtraLifePoints {
        var k :| 0 < k <= |ps| && PointsAfter(s.points, ps, k) >= ExtraLifePoints;
        if k > 1 {
          assert PointsAfter(s1.points, rest, k - 1) >= ExtraLifePoints;
        }
      }
      if r.highScore != s.highScore && r.highScore != s1.highScore {
        var k' :| 0 < k' <= |rest| && r.highScore == PointsAfter(s1.points, rest, k');
        assert r.highScore == PointsAfter(s.points, ps, k' + 1);
      }
      forall k | 1 < k <= |ps| ensures r.highScore >= PointsAfter(s.points, ps, k) {
        assert PointsAfter(s.points, ps, k) == PointsAfter(s1.points, rest, k - 1);
      }
    }
  }

  /** However many points are awarded afterwards, a granted extra life is never granted again. */
  lemma ExtraLifeAtMostOnce(s: Score, ps: seq<int>)
    requires s.extraLifeGiven
    ensures AwardAll(s, ps).lives == s.lives && AwardAll(s, ps).extraLifeGiven
  {
    AwardSeries(s, ps);
  }

  // ---------------------------------------------------------------- remaining-dot thresholds

  /** The remaining-dot count at which the level is cleared: the code compares with 120, the
      full-clear value 0 being commented out beside it. */
  const LevelClearRemaining: int := 120

  /** What eating one dot leads to: the new count and which follow-ups it triggers. */
  datatype DotOutcome = DotOutcome(remaining: int, createFruit: bool, speedUpBlinky: bool, advanceLevel: bool)

  /** dotEaten: the count drops by one; the fruit appears at 174 and 74, Blinky speeds up at 40 and
      20, and at LevelClearRemaining the count is forced to 0 and the level advances. */
  function DotEaten(remaining: int): (o: DotOutcome)
    ensures o.createFruit <==> remaining - 1 == 174 || remaining - 1 == 74
    ensures o.speedUpBlinky <==> remaining - 1 == 40 || remaining - 1 == 20
    ensures o.advanceLevel <==> remaining - 1 == LevelClearRemaining
    ensures o.remaining == if o.advanceLevel then 0 else remaining - 1
    ensures !(o.createFruit && o.speedUpBlinky) && !(o.createFruit && o.advanceLevel) && !(o.speedUpBlinky && o.advanceLevel)
  {
    var n := remaining - 1;
    var fruit := n == 174 || n == 74;
    var speedUp := n == 40 || n == 20;
    if n == LevelClearRemaining then DotOutcome(0, fruit, speedUp, true)
    else DotOutcome(n, fruit, speedUp, false)
  }

  /** The outcomes of k dots eaten one after the other, starting from the given count. */
  function EatRun(remaining: int, k: nat): (run: seq<DotOutcome>)
    ensures |run| == k
    ensures forall i :: 0 <= i < k && run[i].advanceLevel ==> run[i].remaining == 0
    decreases k
  {
    if k == 0 then [] else [DotEaten(remaining)] + EatRun(DotEaten(remaining).remaining, k - 1)
  }

  /** From a count above LevelClearRemaining, the level advances on exactly the dot that brings
      the count to LevelClearRemaining; before that the count falls by one per dot, the fruit
      appears only when the count passes 174, and Blinky never speeds up. */
  lemma {:induction false} RunToLevelClear(remaining: int, k: nat)
    requires remaining > LevelClearRemaining
    requires k <= remaining - LevelClearRemaining
    ensures forall i :: 0 <= i < k ==> (EatRun(remaining, k)[i].advanceLevel <==> i == remaining - LevelClearRemaining - 1)
    ensures forall i :: 0 <= i < k ==> !EatRun(remaining, k)[i].speedUpBlinky
    ensures forall i :: 0 <= i < k ==> (EatRun(remaining, k)[i].createFruit <==> remaining - 1 - i == 174)
    ensures forall i :: 0 <= i < k && i < remaining - LevelClearRemaining - 1 ==> EatRun(remaining, k)[i].remaining == remaining - 1 - i
    decreases k
  {
    if k > 0 {
      var run := EatRun(remaining, k);
      var o := DotEaten(remaining);
      assert run == [o] + EatRun(o.remaining, k - 1);
      if remaining - 1 > LevelClearRemaining {
        RunToLevelClear(remaining - 1, k - 1);
        forall i | 1 <= i < k ensures run[i] == EatRun(remaining - 1, k - 1)[i - 1] { }
      } else {
        assert k == 1;
      }
    }
  }

  /** Whenever the count starts above LevelClearRemaining, the fruit appears at most once and the
      speed-up thresholds 40 and 20 and the second fruit threshold 74 are never reached: the level
      is cleared first. */
  lemma SecondFruitAndSpeedUpsUnreachable(remaining: int)
    requires remaining > LevelClearRemaining
    ensures var run := EatRun(remaining, remaining - LevelClearRemaining);
      && run[|run| - 1].advanceLevel && run[|run| - 1].remaining == 0
      && (forall i :: 0 <= i < |run| ==> !run[i].speedUpBlinky)
      && (forall i, j :: 0 <= i < j < |run| && run[i].createFruit ==> !run[j].createFruit)
  {
    RunToLevelClear(remaining, remaining - LevelClearRemaining);
  }
}
