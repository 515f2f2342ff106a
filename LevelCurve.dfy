/**
 * The level curve of bot.js: a constant table of cumulative XP thresholds
 * (ARK_XP_TABLE) and the two lookups built on it, getXPRequiredForLevel
 * (level -> threshold, clamped) and getLevelFromXP (XP total -> level, a
 * scan of the table from the top).
 *
 * The lemmas are stated for any table that is a level curve (starts at 0,
 * strictly increasing) and then instantiated for the constant table.
 */
module LevelCurve {

  /** Thresholds strictly increase from one level to the next. */
  ghost predicate StrictlyIncreasing(t: seq<int>) {
    forall i, j :: 0 <= i && j == i + 1 && j < |t| ==> t[i] < t[j]
  }

  /** A level curve: level 1 needs 0 XP and every level needs more than the one before. */
  ghost predicate IsCurve(t: seq<int>) {
    |t| > 0 && t[0] == 0 && StrictlyIncreasing(t)
  }

  // ARK_XP_TABLE, one constant per source line of twenty thresholds.
  const Row01: seq<int> := [0, 26, 54, 89, 131, 181, 239, 306, 381, 466, 560, 665, 780, 907, 1045, 1196, 1360, 1537, 1727, 1932]
  const Row02: seq<int> := [2151, 2385, 2635, 2901, 3184, 3485, 3805, 4144, 4504, 4885, 5288, 5714, 6163, 6637, 7136, 7661, 8213, 8793, 9402, 10041]
  const Row03: seq<int> := [10711, 11413, 12148, 12917, 13721, 14561, 15438, 16353, 17308, 18304, 19342, 20423, 21549, 22721, 23940, 25209, 26528, 27899, 29324, 30805]
  const Row04: seq<int> := [32342, 33938, 35595, 37314, 39097, 40946, 42863, 44849, 46907, 49039, 51246, 53530, 55893, 58337, 60864, 63476, 66175, 68963, 71842, 74815]
  const Row05: seq<int> := [77883, 81049, 84315, 87683, 91156, 94736, 98425, 102226, 106142, 110175, 114328, 118603, 123003, 127530, 132188, 136979, 141906, 146972, 152181, 157535]
  const Row06: seq<int> := [163038, 168693, 174503, 180471, 186600, 192894, 199356, 205990, 212799, 219787, 226958, 234315, 241863, 249606, 257548, 265693, 274045, 282609, 291389, 300390]
  const Row07: seq<int> := [309616, 319072, 328762, 338691, 348864, 359285, 369960, 380894, 392092, 403559, 415300, 427321, 439628, 452226, 465121, 478318, 491824, 505644, 519785, 534252]
  const Row08: seq<int> := [549052, 564191, 579675, 595512, 611707, 628267, 645200, 662512, 680211, 698304, 716798, 735701, 755021, 774766, 794944, 815563, 836631, 858158, 880152, 902622]
  const Row09: seq<int> := [925577, 949027, 972982, 997451, 1022444, 1047971, 1074043, 1100670, 1127863, 1155633, 1183991, 1212949, 1242518, 1272710, 1303537, 1335010, 1367142, 1399946, 1433434, 1467619]
  const Row10: seq<int> := [1502515, 1538135, 1574493, 1611603, 1649480, 1688138, 1727592, 1767857, 1808949, 1850883, 1893675, 1937341, 1981897, 2027359, 2073743, 2121066, 2169345, 2218597, 2268840, 2320092]
  const Row11: seq<int> := [2372375, 2425710, 2480118, 2535622, 2592244, 2650007, 2708934, 2769048, 2830374, 2892936, 2956759, 3021868, 3088289, 3156048, 3225172, 3295688, 3367623, 3441005, 3515862, 3592223]

  /** The thresholds of levels 1 to 220: entry i is the XP that level i + 1 starts at. */
  const ArkXpTable: seq<int> :=
    Row01 + Row02 + Row03 + Row04 + Row05 + Row06 + Row07 + Row08 + Row09 + Row10 + Row11

  /**
   * getXPRequiredForLevel: the threshold of a level, with levels at or below
   * 0 clamped to 0 and levels at or beyond the table's length clamped to the
   * last threshold.
   */
  function XpRequiredForLevel(t: seq<int>, level: int): (r: int)
    requires |t| > 0
    ensures r == 0 || r in t
    ensures level <= 0 ==> r == 0
    ensures level >= |t| ==> r == t[|t| - 1]
    ensures 0 < level < |t| ==> r == t[level - 1]
  {
    if level <= 0 then 0
    else if level >= |t| then t[|t| - 1]
    else t[level - 1]
  }

  /**
   * The loop of getLevelFromXP as a function: look at thresholds i - 1 down
   * to 0 and answer the level of the first one that xp reaches, or 1 when
   * none does.
   */
  function ScanDown(t: seq<int>, xp: real, i: nat): (r: int)
    requires i <= |t|
    ensures 1 <= r && (r <= i || r == 1)
    ensures forall j :: r <= j < i ==> xp < t[j] as real
    ensures (r <= i && t[r - 1] as real <= xp) || (r == 1 && forall j :: 0 <= j < i ==> xp < t[j] as real)
  {
    if i == 0 then 1
    else if xp >= t[i - 1] as real then i
    else ScanDown(t, xp, i - 1)
  }

  /**
   * The level of an XP total: the highest level whose threshold is at most
   * xp. On a level curve and for xp >= 0 that level's threshold is reached
   * and the next level's is not.
   */
  function LevelFor(t: seq<int>, xp: real): (level: int)
    ensures 1 <= level && (level <= |t| || level == 1)
    ensures IsCurve(t) && xp >= 0.0 ==>
      t[level - 1] as real <= xp && (level < |t| ==> xp < t[level] as real)
  {
    ScanDown(t, xp, |t|)
  }

  /** getLevelFromXP: a descending loop over the table with an early return. */
  method GetLevelFromXp(t: seq<int>, xp: real) returns (level: int)
    ensures level == LevelFor(t, xp)
    ensures 1 <= level && (level <= |t| || level == 1)
  {
    var i := |t| - 1;
    while i >= 0
      invariant -1 <= i < |t|
      invariant ScanDown(t, xp, i + 1) == LevelFor(t, xp)
    {
      if xp >= t[i] as real {
        return i + 1;
      }
      i := i - 1;
    }
    return 1;
  }

  /** In a strictly increasing table every later threshold is larger, not only the next one. */
  lemma {:induction false} IncreasingPairwise(t: seq<int>, i: int, j: int)
    requires StrictlyIncreasing(t)
    requires 0 <= i < j < |t|
    ensures t[i] < t[j]
    decreases j - i
  {
    if i + 1 < j {
      IncreasingPairwise(t, i, j - 1);
    }
  }

  /**
   * The level is determined by its thresholds: on a level curve, the one
   * level whose threshold xp reaches and whose successor's it does not is
   * the level LevelFor answers.
   */
  lemma LevelForUnique(t: seq<int>, xp: real, level: int)
    requires IsCurve(t)
    requires 1 <= level <= |t|
    requires t[level - 1] as real <= xp
    requires level < |t| ==> xp < t[level] as real
    ensures LevelFor(t, xp) == level
  {
    var m := LevelFor(t, xp);
    if level - 1 > 0 {
      IncreasingPairwise(t, 0, level - 1);
    }
    if m > level {
      if m - 1 > level {
        IncreasingPairwise(t, level, m - 1);
      }
      assert false;
    }
  }

  /** getLevelFromXP answers a level that never decreases when xp grows (any table). */
  lemma LevelForMonotone(t: seq<int>, xp1: real, xp2: real)
    requires xp1 <= xp2
    ensures LevelFor(t, xp1) <= LevelFor(t, xp2)
  {
    var l1 := LevelFor(t, xp1);
    if l1 > 1 {
      assert t[l1 - 1] as real <= xp2;
    }
  }

  /** Round trip: the threshold of a level is an XP total of exactly that level. */
  lemma LevelOfThreshold(t: seq<int>, level: int)
    requires IsCurve(t)
    requires 1 <= level <= |t|
    ensures LevelFor(t, XpRequiredForLevel(t, level) as real) == level
  {
    if level < |t| {
      assert t[level - 1] < t[level];
    }
    LevelForUnique(t, XpRequiredForLevel(t, level) as real, level);
  }

  /** Any XP total strictly between the thresholds of levels L - 1 and L is still level L - 1. */
  lemma LevelBelowThreshold(t: seq<int>, level: int, xp: real)
    requires IsCurve(t)
    requires 1 < level <= |t|
    requires t[level - 2] as real <= xp < t[level - 1] as real
    ensures LevelFor(t, xp) == level - 1
  {
    LevelForUnique(t, xp, level - 1);
  }

  /** Two strictly increasing tables whose junction also increases join into one. */
  lemma {:induction false} IncreasingConcat(a: seq<int>, b: seq<int>)
    requires StrictlyIncreasing(a) && StrictlyIncreasing(b)
    requires |a| > 0 && |b| > 0 && a[|a| - 1] < b[0]
    ensures StrictlyIncreasing(a + b)
    ensures (a + b)[|a + b| - 1] == b[|b| - 1]
  {
    forall i, j | 0 <= i && j == i + 1 && j < |a + b|
      ensures (a + b)[i] < (a + b)[j]
    {
      if j == |a| {
        assert (a + b)[i] == a[|a| - 1] && (a + b)[j] == b[0];
      } else if j < |a| {
        assert (a + b)[i] == a[i] && (a + b)[j] == a[j];
      } else {
        assert (a + b)[i] == b[i - |a|] && (a + b)[j] == b[j - |a|];
      }
    }
  }

  /** Each row of the table is increasing on its own. */
  lemma LowRowsIncreasing()
    ensures StrictlyIncreasing(Row01) && StrictlyIncreasing(Row02) && StrictlyIncreasing(Row03)
    ensures StrictlyIncreasing(Row04)
  {
  }

  lemma MiddleRowsIncreasing()
    ensures StrictlyIncreasing(Row05) && StrictlyIncreasing(Row06) && StrictlyIncreasing(Row07)
    ensures StrictlyIncreasing(Row08)
  {
  }

  lemma HighRowsIncreasing()
    ensures StrictlyIncreasing(Row09) && StrictlyIncreasing(Row10) && StrictlyIncreasing(Row11)
  {
  }

  /** The constant table is a level curve of 220 levels. */
  lemma ArkIsCurve()
    ensures |ArkXpTable| == 220
    ensures IsCurve(ArkXpTable)
    ensures ArkXpTable[1] == 26
  {
    LowRowsIncreasing();
    MiddleRowsIncreasing();
    HighRowsIncreasing();
    IncreasingConcat(Row01, Row02);
    IncreasingConcat(Row01 + Row02, Row03);
    IncreasingConcat(Row01 + Row02 + Row03, Row04);
    IncreasingConcat(Row01 + Row02 + Row03 + Row04, Row05);
    IncreasingConcat(Row01 + Row02 + Row03 + Row04 + Row05, Row06);
    IncreasingConcat(Row01 + Row02 + Row03 + Row04 + Row05 + Row06, Row07);
    IncreasingConcat(Row01 + Row02 + Row03 + Row04 + Row05 + Row06 + Row07, Row08);
    IncreasingConcat(Row01 + Row02 + Row03 + Row04 + Row05 + Row06 + Row07 + Row08, Row09);
    IncreasingConcat(Row01 + Row02 + Row03 + Row04 + Row05 + Row06 + Row07 + Row08 + Row09, Row10);
    IncreasingConcat(Row01 + Row02 + Row03 + Row04 + Row05 + Row06 + Row07 + Row08 + Row09 + Row10, Row11);
  }

  /** On a level curve a higher level never needs less XP. */
  lemma ThresholdMonotone(t: seq<int>, l1: int, l2: int)
    requires IsCurve(t)
    requires l1 <= l2
    ensures 0 <= XpRequiredForLevel(t, l1) <= XpRequiredForLevel(t, l2) <= t[|t| - 1]
  {
    var i1 := if l1 <= 0 then 0 else if l1 >= |t| then |t| - 1 else l1 - 1;
    var i2 := if l2 <= 0 then 0 else if l2 >= |t| then |t| - 1 else l2 - 1;
    if 0 < i1 { IncreasingPairwise(t, 0, i1); }
    if i1 < i2 { IncreasingPairwise(t, i1, i2); }
    if i2 < |t| - 1 { IncreasingPairwise(t, i2, |t| - 1); }
  }

  /**
   * Around the level-20 threshold of the ARK table: XP in [1727, 1932) is
   * level 19 and XP in [1932, 2151) is level 20, so a user one XP short of
   * 1932 who gains 1.5 XP moves from level 19 to level 20.
   */
  lemma ArkLevelTwentyBoundary(xp: real)
    ensures |ArkXpTable| > 20
    ensures ArkXpTable[18] == 1727 && ArkXpTable[19] == 1932 && ArkXpTable[20] == 2151
    ensures 1727.0 <= xp < 1932.0 ==> LevelFor(ArkXpTable, xp) == 19
    ensures 1932.0 <= xp < 2151.0 ==> LevelFor(ArkXpTable, xp) == 20
    ensures XpRequiredForLevel(ArkXpTable, 20) == 1932
  {
    ArkIsCurve();
    assert ArkXpTable[18] == 1727 && ArkXpTable[19] == 1932 && ArkXpTable[20] == 2151;
    if 1727.0 <= xp < 1932.0 {
      LevelForUnique(ArkXpTable, xp, 19);
    }
    if 1932.0 <= xp < 2151.0 {
      LevelForUnique(ArkXpTable, xp, 20);
    }
  }
}
