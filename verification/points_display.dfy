/**
 * The header widget that shows the current level, a progress bar towards the
 * next level and a tooltip with the remaining points.
 */
module PointsDisplay {
  import opened GamificationProvider
  import Js

  /**
   * A progress-bar value: `Ratio(num, den)` stands for `num / den * 100`
   * percent, `Full` for a literal 100.
   */
  datatype Bar = Ratio(num: int, den: int) | Full

  /** The level number shown as "next": one more, or the same at level 5 and above. */
  function NextLevel(l: Level): (n: int)
    ensures n >= l.level
    ensures n == l.level <==> l.level >= 5
  {
    if l.level < 5 then l.level + 1 else l.level
  }

  /** The size of the step to the next level, chosen by the next level's number. */
  function StepByNextLevel(nextLevel: int): int {
    if nextLevel == 2 then 100
    else if nextLevel == 3 then 200
    else if nextLevel == 4 then 400
    else 800
  }

  /** The points total at which the next level begins. */
  function NextLevelPoints(l: Level): (r: int)
    ensures l.level >= 5 ==> r == l.pointsRequired
    ensures l.level < 5 ==> r > l.pointsRequired
  {
    if l.level < 5 then l.pointsRequired + StepByNextLevel(NextLevel(l)) else l.pointsRequired
  }

  /** For every row of the table, the next-level points are the next row's threshold (1500 at the top). */
  lemma NextLevelPointsIsNextThreshold(k: int)
    requires 0 <= k < |Levels|
    ensures k + 1 < |Levels| ==> NextLevel(Levels[k]) == Levels[k + 1].level
    ensures k + 1 < |Levels| ==> NextLevelPoints(Levels[k]) == Levels[k + 1].pointsRequired
    ensures k + 1 == |Levels| ==> NextLevel(Levels[k]) == 5 && NextLevelPoints(Levels[k]) == 1500
  {
  }

  /** The progress bar's value. */
  function Progress(points: int, l: Level): (b: Bar)
    ensures l.level < 5 <==> b.Ratio?
    ensures b.Ratio? ==> b.den > 0
  {
    if l.level < 5 then Ratio(points - l.pointsRequired, NextLevelPoints(l) - l.pointsRequired) else Full
  }

  /**
   * When the shown level is the one the points determine and it is below the
   * top, the bar is strictly between empty (inclusive) and full (exclusive).
   * A negative total, which negative awards can produce, gives a negative bar.
   */
  lemma ProgressInRange(points: int)
    requires points >= 0
    requires CurrentLevel(points).level < 5
    ensures Progress(points, CurrentLevel(points)).Ratio?
    ensures 0 <= Progress(points, CurrentLevel(points)).num < Progress(points, CurrentLevel(points)).den
  {
    var l := CurrentLevel(points);
    CurrentLevelTable(points);
    NextLevelPointsIsNextThreshold(l.level - 1);
  }

  /** At the top level the bar is full. */
  lemma ProgressAtTop(points: int)
    requires points >= 1500
    ensures Progress(points, CurrentLevel(points)) == Full
  {
    CurrentLevelTable(points);
  }

  /** A negative total at level 1 shows a bar below empty. */
  lemma ProgressNegative(points: int)
    requires points < 0
    ensures Progress(points, CurrentLevel(points)) == Ratio(points, 100)
  {
    CurrentLevelBelowFirstThreshold(points);
  }

  /** The tooltip line under the level title. */
  function Tooltip(points: int, l: Level): string {
    if l.level < 5 then
      Js.IntToString(points - l.pointsRequired) + "/" + Js.IntToString(NextLevelPoints(l) - l.pointsRequired) + " points to next level"
    else
      "Max level reached!"
  }

  /** The tooltip shows the same fraction as the bar, or the max-level text exactly when the bar is full. */
  lemma TooltipMatchesBar(points: int, l: Level)
    ensures Progress(points, l).Ratio? ==>
      Tooltip(points, l) == Js.IntToString(Progress(points, l).num) + "/" + Js.IntToString(Progress(points, l).den) + " points to next level"
    ensures Progress(points, l).Full? <==> Tooltip(points, l) == "Max level reached!"
  {
    if Progress(points, l).Ratio? {
      var t := Tooltip(points, l);
      assert t[|t| - 1] == 'l';
      assert "Max level reached!"[17] == '!';
    }
  }
}
