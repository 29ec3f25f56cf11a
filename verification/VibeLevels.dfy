// Rating points: the level table, the weighted score, and what an evaluation keeps.
module VibeLevels {
  import opened Prelude

  // `weight` is in hundredths.
  datatype Level = Level(name: string, min: nat, max: nat, weight: nat)

  const LEVELS: seq<Level> := [
    Level("vc-T1", 0, 99, 100),
    Level("vc-T2", 100, 199, 105),
    Level("vc-T3", 200, 349, 110),
    Level("vc-T4", 350, 549, 120),
    Level("vc-T5", 550, 749, 135),
    Level("vc-T6", 750, 949, 150),
    Level("vc-T7", 950, 1199, 170),
    Level("vc-T8", 1200, 1499, 190),
    Level("vc-T9", 1500, 1899, 220),
    Level("vc-T10", 1900, 999999, 250)]

  const T5_CAP := 749
  const TOP := 999999

  function FindLevel(points: int, i: nat): Level
    requires i <= |LEVELS|
    decreases |LEVELS| - i
  {
    if i == |LEVELS| then LEVELS[0]
    else if LEVELS[i].min <= points <= LEVELS[i].max then LEVELS[i]
    else FindLevel(points, i + 1)
  }

  function Min(a: int, b: int): int {
    if a <= b then a else b
  }

  // The first rating is capped at T5; later ones are not.
  function LevelForPoints(points: int, capAtT5: bool): Level {
    FindLevel(Min(points, if capAtT5 then T5_CAP else TOP), 0)
  }

  datatype NextLevel = NextLevel(level: string, pointsNeeded: int, minPoints: int)

  function FindNext(points: int, i: nat): Option<NextLevel>
    requires i <= |LEVELS|
    decreases |LEVELS| - i
  {
    if i == |LEVELS| then None
    else if LEVELS[i].min > points then Some(NextLevel(LEVELS[i].name, LEVELS[i].min - points, LEVELS[i].min))
    else FindNext(points, i + 1)
  }

  function GetNextLevel(points: int): Option<NextLevel> {
    FindNext(points, 0)
  }

  // ---- The table is a partition ----

  // Which row the points fall in, by the rows' lower bounds alone.
  function Rank(points: nat): (i: nat)
    ensures i < |LEVELS| && LEVELS[i].min <= points && (i + 1 < |LEVELS| ==> points < LEVELS[i + 1].min)
  {
    if points < 100 then 0 else if points < 200 then 1 else if points < 350 then 2
    else if points < 550 then 3 else if points < 750 then 4 else if points < 950 then 5
    else if points < 1200 then 6 else if points < 1500 then 7 else if points < 1900 then 8 else 9
  }

  lemma {:induction false} RowBelowMisses(points: nat, i: nat)
    requires points <= TOP && i <= Rank(points)
    ensures FindLevel(points, i) == LEVELS[Rank(points)]
    decreases Rank(points) - i
  {
    if i < Rank(points) { RowBelowMisses(points, i + 1); }
  }

  // The uncapped level of any points is the last row whose minimum they reach.
  lemma LevelIsRank(points: nat)
    ensures LevelForPoints(points, false) == LEVELS[Rank(points)]
  {
    RowBelowMisses(Min(points, TOP), 0);
  }

  lemma {:induction false} NextRow(points: nat, i: nat)
    requires i <= Rank(points)
    ensures FindNext(points, i) ==
            if Rank(points) + 1 < |LEVELS|
            then var up := LEVELS[Rank(points) + 1]; Some(NextLevel(up.name, up.min - points, up.min))
            else None
    decreases Rank(points) - i
  {
    if i < Rank(points) {
      NextRow(points, i + 1);
    } else if i + 1 == |LEVELS| {
      assert FindNext(points, |LEVELS|) == None;
    }
  }

  // The points a level is said to be short of are exact: so many reach it, and no fewer.
  lemma PointsNeededAreExact(points: nat)
    ensures var next := GetNextLevel(points);
            if points >= 1900 then next == None
            else
              && next.Some? && next.value.pointsNeeded > 0
              && LevelForPoints(points + next.value.pointsNeeded, false).name == next.value.level
              && LevelForPoints(points + next.value.pointsNeeded - 1, false) == LevelForPoints(points, false)
              && LevelForPoints(points, false).name != next.value.level
  {
    NextRow(points, 0);
    LevelIsRank(points);
    if points < 1900 {
      var needed := LEVELS[Rank(points) + 1].min - points;
      LevelIsRank(points + needed);
      LevelIsRank(points + needed - 1);
      assert Rank(points + needed) == Rank(points) + 1 && Rank(points + needed - 1) == Rank(points);
    }
  }

  // ---- The weighted score ----

  // The weights are exact eighths: 2.25, 1.875, 1.5, 1.125 and 0.75.
  const WEIGHTS: seq<nat> := [18, 15, 12, 9, 6]

  function WeightedEighths(scores: seq<int>): int
    requires |scores| <= |WEIGHTS|
  {
    if scores == [] then 0
    else WeightedEighths(scores[..|scores| - 1]) + scores[|scores| - 1] * WEIGHTS[|scores| - 1]
  }

  // Python's `round` of n eighths: to the nearest, halves to the even neighbour.
  function RoundEighths(n: int): int {
    var q, r := n / 8, n % 8;
    if r < 4 then q else if r > 4 then q + 1 else if q % 2 == 0 then q else q + 1
  }

  // The nearest integer, and of two nearest ones the even.
  lemma RoundsToNearestEven(n: int, m: int)
    ensures var d, e := 8 * RoundEighths(n) - n, 8 * m - n;
            && (if d < 0 then -d else d) <= (if e < 0 then -e else e)
            && (m != RoundEighths(n) && (if d < 0 then -d else d) == (if e < 0 then -e else e) ==> RoundEighths(n) % 2 == 0)
  {
  }

  lemma RoundIsMonotone(m: int, n: int)
    requires m <= n
    ensures RoundEighths(m) <= RoundEighths(n)
  {
  }

  function VibePower(scores: seq<int>): int
    requires |scores| == |WEIGHTS|
  {
    Min(RoundEighths(WeightedEighths(scores)), T5_CAP)
  }

  // The scores in the order of the weights: depth, projects, AI, portfolio, background.
  method CalculateVibePower(scores: seq<int>) returns (power: int)
    requires |scores| == |WEIGHTS|
    ensures power == VibePower(scores)
  {
    var total := 0;
    for i := 0 to |scores|
      invariant total == WeightedEighths(scores[..i])
    {
      total := total + scores[i] * WEIGHTS[i];
      assert scores[..i + 1][..i] == scores[..i];
    }
    assert scores[..|scores|] == scores;
    power := Min(RoundEighths(total), T5_CAP);
  }

  predicate InRange(scores: seq<int>) {
    forall s <- scores :: 0 <= s <= 100
  }

  lemma {:induction false} WeightedIsMonotone(low: seq<int>, high: seq<int>)
    requires |low| == |high| <= |WEIGHTS|
    requires forall i | 0 <= i < |low| :: low[i] <= high[i]
    ensures WeightedEighths(low) <= WeightedEighths(high)
  {
    if low != [] {
      var n := |low| - 1;
      WeightedIsMonotone(low[..n], high[..n]);
      var w := WEIGHTS[n];
      assert low[n] * w <= high[n] * w;
    }
  }

  function Flat(score: int, n: nat): seq<int> {
    seq(n, i => score)
  }

  function WeightSum(n: nat): nat
    requires n <= |WEIGHTS|
  {
    if n == 0 then 0 else WeightSum(n - 1) + WEIGHTS[n - 1]
  }

  lemma {:induction false} WeightedFlat(score: int, n: nat)
    requires n <= |WEIGHTS|
    ensures WeightedEighths(Flat(score, n)) == score * WeightSum(n)
  {
    if n > 0 {
      WeightedFlat(score, n - 1);
      assert Flat(score, n)[..n - 1] == Flat(score, n - 1);
    }
  }

  // Raising any scores never lowers the power or the level it maps to.
  lemma PowerIsMonotone(low: seq<int>, high: seq<int>)
    requires |low| == |high| == |WEIGHTS| && InRange(low)
    requires forall i | 0 <= i < |low| :: low[i] <= high[i]
    ensures 0 <= VibePower(low) <= VibePower(high)
    ensures LevelForPoints(VibePower(low), true).min <= LevelForPoints(VibePower(high), true).min
  {
    WeightedIsMonotone(low, high);
    forall i | 0 <= i < |low| ensures Flat(0, 5)[i] <= low[i] { assert low[i] in low; }
    WeightedIsMonotone(Flat(0, 5), low);
    WeightedFlat(0, 5);
    RoundIsMonotone(0, WeightedEighths(low));
    RoundIsMonotone(WeightedEighths(low), WeightedEighths(high));
    LevelIsRank(VibePower(low));
    LevelIsRank(VibePower(high));
  }

  // Scores out of a hundred give 0 to 749 points, and no level above the fifth.
  lemma PowerRange(scores: seq<int>)
    requires |scores| == |WEIGHTS| && InRange(scores)
    ensures 0 <= VibePower(scores) <= 749
    ensures Rank(VibePower(scores)) <= 4
    ensures LevelForPoints(VibePower(scores), true) == LevelForPoints(VibePower(scores), false) == LEVELS[Rank(VibePower(scores))]
  {
    PowerIsMonotone(scores, scores);
    LevelIsRank(VibePower(scores));
  }

  // Five full marks would come to 750, one past the cap, so the cap is reached and needed.
  lemma CapIsReached()
    ensures RoundEighths(WeightedEighths(Flat(100, 5))) == 750 && VibePower(Flat(100, 5)) == T5_CAP
  {
    WeightedFlat(100, 5);
    assert WeightSum(2) == 33 && WeightSum(5) == 60;
  }

  // ---- The evaluation step ----

  function Distance(a: int, b: int): int {
    if a <= b then b - a else a - b
  }

  class RatingAgent {
    var scores: seq<int>
    var vibePower: int

    constructor ()
      ensures scores == [] && vibePower == 0
    {
      scores, vibePower := [], 0;
    }

    // The model's own figure is kept while within twenty of the recalculated one.
    method EvaluateSkills(given: seq<int>, claimed: int) returns (level: Level)
      requires |given| == |WEIGHTS|
      modifies this
      ensures scores == given
      ensures vibePower == if Distance(VibePower(given), claimed) > 20 then VibePower(given) else claimed
      ensures Distance(vibePower, VibePower(given)) <= 20
      ensures level == LevelForPoints(vibePower, true)
    {
      scores := given;
      vibePower := claimed;
      var recalc := CalculateVibePower(scores);
      if Distance(recalc, vibePower) > 20 {
        vibePower := recalc;
      }
      level := LevelForPoints(vibePower, true);
    }
  }

  // Whatever figure is kept, even one past the cap or below zero, the level is T1 to T5.
  lemma KeptLevelIsCapped(kept: int)
    ensures exists i | 0 <= i <= 4 :: LevelForPoints(kept, true) == LEVELS[i]
  {
    if kept >= 0 {
      RowBelowMisses(Min(kept, T5_CAP), 0);
      assert Rank(Min(kept, T5_CAP)) <= 4;
    } else {
      NegativeFallsBack(kept, 0);
    }
  }

  lemma {:induction false} NegativeFallsBack(points: int, i: nat)
    requires points < 0 && i <= |LEVELS|
    ensures FindLevel(points, i) == LEVELS[0]
    decreases |LEVELS| - i
  {
    if i < |LEVELS| { NegativeFallsBack(points, i + 1); }
  }

  // The power in one line: the weights in eighths, rounded, and capped.
  lemma PowerTold(depth: int, projects: int, ai: int, portfolio: int, background: int)
    ensures var power := VibePower([depth, projects, ai, portfolio, background]);
            var eighths := 18 * depth + 15 * projects + 12 * ai + 9 * portfolio + 6 * background;
            power == if RoundEighths(eighths) > 749 then 749 else RoundEighths(eighths)
  {
    var scores := [depth, projects, ai, portfolio, background];
    assert scores[..4] == [depth, projects, ai, portfolio];
    assert scores[..4][..3] == [depth, projects, ai];
    assert scores[..4][..3][..2] == [depth, projects];
    assert scores[..4][..3][..2][..1] == [depth] && [depth][..0] == [];
    assert WeightedEighths([depth]) == 18 * depth;
    assert WeightedEighths([depth, projects]) == 18 * depth + 15 * projects;
    assert WeightedEighths([depth, projects, ai]) == 18 * depth + 15 * projects + 12 * ai;
    assert WeightedEighths([depth, projects, ai, portfolio]) == 18 * depth + 15 * projects + 12 * ai + 9 * portfolio;
  }
}
